/** Shared UI pieces whose output depends on their props: the status badge's
    colour switch, the button's class composition and the card header rule.
    Colours and style strings are enum values. */
module UiElements {
  import opened Wrappers
  import opened JsString
  import opened Types

  datatype BadgeColor = Gray | Green | Yellow | Red | Blue

  /** The `switch (status.toLowerCase())` in `Badge`, gray by default. */
  function BadgeColorOf(status: string): (c: BadgeColor)
    ensures var key := ToLower(status);
      && (c == Green <==> key == "moving" || key == "active" || key == "low")
      && (c == Yellow <==> key == "delayed" || key == "medium" || key == "traffic")
      && (c == Red <==> key == "high" || key == "security" || key == "offline")
      && (c == Blue <==> key == "completed")
  {
    var key := ToLower(status);
    if key == "moving" || key == "active" || key == "low" then Green
    else if key == "delayed" || key == "medium" || key == "traffic" then Yellow
    else if key == "high" || key == "security" || key == "offline" then Red
    else if key == "completed" then Blue
    else Gray
  }

  datatype BadgeView = BadgeView(color: BadgeColor, text: string)

  /** The badge shows the status as given; only its colour uses the lower-cased form. */
  function Badge(status: string): (v: BadgeView)
    ensures v.text == status
    ensures v.color == BadgeColorOf(status)
  {
    BadgeView(BadgeColorOf(status), status)
  }

  /** Statuses that differ only in letter case get the same colour. */
  lemma BadgeColorIgnoresCase(s1: string, s2: string)
    requires ToLower(s1) == ToLower(s2)
    ensures Badge(s1).color == Badge(s2).color
  {
  }

  /** The badge colours of three of the convoy statuses. */
  lemma ConvoyStatusBadgeColors()
    ensures BadgeColorOf(StatusText(Moving)) == Green
    ensures BadgeColorOf(StatusText(Delayed)) == Yellow
    ensures BadgeColorOf(StatusText(Completed)) == Blue
  {
    LowerOf("Moving", "moving");
    LowerOf("Delayed", "delayed");
    LowerOf("Completed", "completed");
  }

  /** "Scheduled" is not one of the switch's cases and falls to the gray default. */
  lemma ScheduledBadgeIsGray()
    ensures BadgeColorOf(StatusText(Scheduled)) == Gray
  {
    var key := "scheduled";
    LowerOf("Scheduled", key);
    assert key[0] == 's' && key[1] == 'c' && |key| == 9;
  }

  /** `t` is `s` lower-cased, checked character by character. */
  lemma LowerOf(s: string, t: string)
    requires |s| == |t| && forall i :: 0 <= i < |s| ==> LowerChar(s[i]) == t[i]
    ensures ToLower(s) == t
  {
  }

  /** The badge colours of the three risk levels of a route analysis. */
  lemma RiskLevelBadgeColors()
    ensures BadgeColorOf("Low") == Green
    ensures BadgeColorOf("Medium") == Yellow
    ensures BadgeColorOf("High") == Red
  {
    LowerOf("Low", "low");
    LowerOf("Medium", "medium");
    LowerOf("High", "high");
  }

  datatype Variant = Primary | Secondary | Danger

  /** The three parts of a button's class attribute. */
  datatype ClassPart = BaseStyle | VariantStyle(variant: Variant) | CallerClass(name: string)

  /** `${baseStyle} ${variants[variant]} ${className}`, with `variant`
      defaulting to primary and `className` to "". */
  function ButtonClass(variant: Option<Variant>, className: Option<string>): (parts: seq<ClassPart>)
    ensures |parts| == 3 && parts[0] == BaseStyle
    ensures variant.None? ==> parts[1] == VariantStyle(Primary)
    ensures variant.Some? ==> parts[1] == VariantStyle(variant.value)
    ensures className.None? ==> parts[2] == CallerClass("")
    ensures className.Some? ==> parts[2] == CallerClass(className.value)
  {
    [BaseStyle, VariantStyle(variant.GetOr(Primary)), CallerClass(className.GetOr(""))]
  }

  /** `(title || action)`: a card has a header row exactly when it has a
      non-empty title or a truthy action. */
  function CardHasHeader(title: Option<string>, hasAction: bool): (shown: bool)
    ensures shown <==> (title.Some? && title.value != "") || hasAction
  {
    match title
    case Some(t) => t != "" || hasAction
    case None => hasAction
  }
}
