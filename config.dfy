/** The fail-fast settings check at the top of the script (main.py:10-20): four
    environment variables are read and, in a fixed order, the first one found
    missing stops the program with a message naming it. */
module Config {
  import opened Wrappers

  /** What a failed check reports. The two coordinate settings are checked, and
      reported, together. */
  datatype Setting = StartAndEndPoint | MapboxToken | Styles

  /** The four variables as `os.environ.get` returns them: None when unset. */
  datatype Env = Env(
    mapboxToken: Option<string>,
    styles: Option<string>,
    startPoint: Option<string>,
    endPoint: Option<string>)

  /** Python's `not value` for the result of `os.environ.get`: true for None and
      for the empty string, false for every other string (whitespace included). */
  predicate Missing(value: Option<string>)
  {
    value.None? || value.value == ""
  }

  /** The text of the RuntimeError raised for each failed check. */
  function Message(setting: Setting): string
  {
    match setting
    case StartAndEndPoint => "Please set START_POINT and END_POINT in your .env file."
    case MapboxToken => "Please set MAPBOX_TOKEN in your .env file."
    case Styles => "Please set STYLES in your .env file."
  }

  /** Runs the three checks in the script's order: the coordinates, then the
      token, then the style list. The first failing check is the one reported,
      so each error is reported exactly when its setting is missing and every
      earlier check passed; Pass means all four settings are present. */
  function Validate(env: Env): (r: Outcome<Setting>)
    ensures r == Fail(StartAndEndPoint) <==> Missing(env.startPoint) || Missing(env.endPoint)
    ensures r == Fail(MapboxToken) <==>
      !Missing(env.startPoint) && !Missing(env.endPoint) && Missing(env.mapboxToken)
    ensures r == Fail(Styles) <==>
      !Missing(env.startPoint) && !Missing(env.endPoint) && !Missing(env.mapboxToken) && Missing(env.styles)
    ensures r == Pass <==>
      !Missing(env.startPoint) && !Missing(env.endPoint) && !Missing(env.mapboxToken) && !Missing(env.styles)
  {
    if Missing(env.startPoint) || Missing(env.endPoint) then Fail(StartAndEndPoint)
    else if Missing(env.mapboxToken) then Fail(MapboxToken)
    else if Missing(env.styles) then Fail(Styles)
    else Pass
  }

  /** A missing coordinate is reported whatever the token and style list are:
      changing those two settings never changes that outcome. */
  lemma PointsCheckedFirst(env: Env, token: Option<string>, styles: Option<string>)
    requires Missing(env.startPoint) || Missing(env.endPoint)
    ensures Validate(env.(mapboxToken := token, styles := styles)) == Validate(env) == Fail(StartAndEndPoint)
  {
  }

  /** Once the coordinates are set, a missing token is reported whatever the
      style list is. */
  lemma TokenCheckedBeforeStyles(env: Env, styles: Option<string>)
    requires !Missing(env.startPoint) && !Missing(env.endPoint) && Missing(env.mapboxToken)
    ensures Validate(env.(styles := styles)) == Fail(MapboxToken)
  {
  }

  /** The three messages are pairwise different, so the message tells which
      check failed. */
  lemma MessagesDistinct(a: Setting, b: Setting)
    requires a != b
    ensures Message(a) != Message(b)
  {
    assert |Message(a)| != |Message(b)|;
  }
}
