/** The conditions under which the estimator throws and the run aborts. */
module Errors {
  import opened Wrappers

  datatype Error =
    /** `getCostPerMonth` on a volume type other than standard, gp2 and io1. */
    | UnknownVolumeType(volumeType: string)
    /** `getCostPerMonth` on an io1 volume whose IOPS are null: unboxing fails. */
    | MissingIops(volumeId: string)
    /** `getPricePerHour` finds no price for the (type, platform) pair. */
    | UnknownPricingKey(instanceType: string, platform: Option<string>)
    /** `Collectors.toMap` meets a volume id a second time. */
    | DuplicateVolumeId(volumeId: string)
    /** A block-device mapping without an EBS device: `getVolumeId` on null. */
    | MissingEbsDevice
    /** A mapped volume id that is not in the volume snapshot: the linked list holds null. */
    | DanglingVolumeReference(volumeId: string)
}
