/**
 * The student detail dialog: the activity icon chosen from the application name, the category
 * label, the screen-time reading in hours and minutes, and the five activities listed.
 */
module StudentDetail {
  import opened Wrappers
  import opened Text
  import opened Lists
  import opened Storage

  datatype Icon = GraduationCap | Youtube | Calculator

  /**
   * The icon for an activity's application: a missing or empty name gets the default; a name that
   * includes "youtube" (any ASCII case) gets Youtube, tested before "calculadora" or "calculator".
   */
  function AppIcon(app: Option<string>): (r: Icon)
    ensures app.None? || app == Some("") ==> r == GraduationCap
    ensures r == Youtube <==> app.Some? && app.value != "" && Includes(Lower(app.value), "youtube")
    ensures r == Calculator <==>
              && app.Some? && app.value != "" && !Includes(Lower(app.value), "youtube")
              && (Includes(Lower(app.value), "calculadora") || Includes(Lower(app.value), "calculator"))
  {
    if app.None? || app.value == "" then GraduationCap
    else
      var lower := Lower(app.value);
      if Includes(lower, "youtube") then Youtube
      else if Includes(lower, "calculadora") || Includes(lower, "calculator") then Calculator
      else GraduationCap
  }

  /** An application name holding both words shows the Youtube icon. */
  lemma YoutubeFirst()
    ensures AppIcon(Some("YouTube Calculator")) == Youtube
  {
    assert Lower("YouTube Calculator")[0..7] == "youtube";
    IncludesAt(Lower("YouTube Calculator"), "youtube", 0);
  }

  /** The category label; a missing category reads as a tool. */
  function CategoryText(category: Option<string>): (r: string)
    ensures category == Some("educational") <==> r == "Educativo"
    ensures category == Some("entertainment") <==> r == "Entretenimiento"
    ensures category == Some("inappropriate") <==> r == "Inapropiado"
    ensures r == "Herramienta" <==>
              category != Some("educational") && category != Some("entertainment") && category != Some("inappropriate")
  {
    match category
    case Some("educational") => "Educativo"
    case Some("entertainment") => "Entretenimiento"
    case Some("inappropriate") => "Inapropiado"
    case _ => "Herramienta"
  }

  /** Division truncated toward zero, the quotient that JavaScript's `%` pairs with. */
  function TruncDiv(x: int, n: nat): int
    requires n > 0
  {
    if x >= 0 then x / n else -((-x) / n)
  }

  /** `x % n` in JavaScript: the remainder of truncating division, taking the sign of the dividend. */
  function JsRem(x: int, n: nat): (r: int)
    requires n > 0
    ensures x == n * TruncDiv(x, n) + r
    ensures x >= 0 ==> 0 <= r < n
    ensures x < 0 ==> -(n as int) < r <= 0
  {
    if x >= 0 then x % n else -((-x) % n)
  }

  datatype Reading = Reading(hours: int, minutes: int)

  /**
   * "{h}h {m}min": hours by `Math.floor(t / 60)`, minutes by `t % 60`; a null screen time
   * divides as 0.
   */
  function ScreenTimeReading(screenTime: Option<int>): Reading {
    var t := screenTime.GetOr(0);
    Reading(t / 60, JsRem(t, 60))
  }

  /** For a non-negative screen time the reading splits it exactly, with minutes below 60. */
  lemma ReadingSplits(screenTime: Option<int>)
    requires screenTime.None? || screenTime.value >= 0
    ensures var r := ScreenTimeReading(screenTime);
            && r.hours * 60 + r.minutes == screenTime.GetOr(0)
            && 0 <= r.minutes < 60 && r.hours >= 0
  {
  }

  /** A negative screen time mixes a floored hour with a truncated remainder: -61 reads as -2h -1min. */
  lemma NegativeReading()
    ensures ScreenTimeReading(Some(-61)) == Reading(-2, -1)
  {
  }

  /** The activity list: the first five fetched activities, none while unloaded. */
  function RecentActivities(activities: Option<seq<ActivityWithStudent>>): (r: seq<ActivityWithStudent>)
    ensures activities.None? ==> r == []
    ensures activities.Some? ==> |r| == (if |activities.value| < 5 then |activities.value| else 5) && r == activities.value[..|r|]
  {
    Take(activities.GetOr([]), 5)
  }
}
