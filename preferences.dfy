/**
 * The "webtrekk-preferences" shared preferences the tracker core reads and writes, one
 * optional typed field per key (absent until first written).
 */
module Preferences {
  import opened Wrappers

  datatype SharedPreferences = SharedPreferences(
    optedOut: Option<bool>,        // "optedOut"
    isSampling: Option<bool>,      // "issampling"
    sampling: Option<int>,         // "sampling"
    configuration: Option<string>) // "webtrekkTrackingConfiguration"

  const NoPreferences := SharedPreferences(None, None, None, None)
}
