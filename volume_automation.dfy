/** `VolumeAutomation` (Photon/Source/Media/VolumeAutomation.swift): a linear volume ramp over a time range. */
module Volume {
  import opened Timing

  datatype VolumeAutomation = VolumeAutomation(timeRange: TimeRange, start: real, end: real)
}
