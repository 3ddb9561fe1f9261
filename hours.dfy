/** The active-hours gate that every event handler of the controller consults first. */
module ActiveHours {

  /** True when the prop should react at `currentHour`. When motion times are disabled
      every hour is active; otherwise the window is the half-open range
      [startHour, endHour) with no wrap past midnight. */
  function IsDuringConfiguredHours(motionTimesEnabled: bool, currentHour: int, startHour: int, endHour: int): (r: bool)
    ensures !motionTimesEnabled ==> r
    ensures motionTimesEnabled ==> (r <==> startHour <= currentHour < endHour)
    ensures motionTimesEnabled && endHour <= startHour ==> !r
  {
    if motionTimesEnabled then currentHour >= startHour && currentHour < endHour else true
  }

  /** The window includes its start hour and excludes its end hour. */
  lemma WindowBoundaries(startHour: int, endHour: int)
    requires startHour < endHour
    ensures IsDuringConfiguredHours(true, startHour, startHour, endHour)
    ensures !IsDuringConfiguredHours(true, endHour, startHour, endHour)
  {
  }
}
