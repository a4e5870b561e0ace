/** The two HomeKit (HAP) status codes the plugin raises towards the host
    framework. */
module Hap {

  datatype HapStatus = SERVICE_COMMUNICATION_FAILURE | NOT_ALLOWED_IN_CURRENT_STATE
}
