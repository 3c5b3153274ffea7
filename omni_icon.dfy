/** `Picowind\Supports\OmniIconSupport`: icons through the Omni Icon
    plugin's icon service when the plugin is loaded, `null` otherwise. */
module OmniIcon {
  import opened Php
  import opened Env

  /** An attribute array, in its order: each key with its value. */
  type Attributes = seq<(string, Value)>

  /** What the plugin's `IconService::get_icon` does with a request: SVG
      markup, `null`, or an exception. */
  datatype IconOutcome = Svg(markup: string) | NoIcon | Thrown

  /** The icon service, when the plugin's container yields one. */
  type IconService = (string, Attributes) -> IconOutcome

  /** `(string) $i` for an integer. */
  function IntText(i: int): (r: string)
    ensures r != ""
  {
    if i < 0 then "-" + Decimal(-i) else Decimal(i)
  }

  /** Different integers are written differently. */
  lemma IntTextInjective(i: int, j: int)
    requires IntText(i) == IntText(j)
    ensures i == j
  {
    DecimalNonEmpty(if i < 0 then -i else i);
    DecimalNonEmpty(if j < 0 then -j else j);
    if i < 0 && j < 0 {
      assert IntText(i)[1..] == Decimal(-i) && IntText(j)[1..] == Decimal(-j);
      DecimalInjective(-i, -j);
    } else if i >= 0 && j >= 0 {
      DecimalInjective(i, j);
    } else {
      var neg := if i < 0 then i else j;
      var pos := if i < 0 then j else i;
      assert IntText(neg)[0] == '-';
      DecimalDigits(pos);
    }
  }

  lemma {:induction false} DecimalDigits(n: nat)
    ensures forall k :: 0 <= k < |Decimal(n)| ==> Decimal(n)[k] != '-'
    decreases n
  {
    if n >= 10 {
      DecimalDigits(n / 10);
    }
  }

  /** One attribute value as handed to the service: booleans become
      `'true'` / `'false'`, integers their decimal text, anything else is
      left alone. */
  function Stringify(v: Value): (r: Value)
    ensures !r.Bool? && !r.Int?
    ensures v.Bool? ==> r == Str(if v.b then "true" else "false")
    ensures v.Int? ==> r.Str? && r.s == IntText(v.i)
    ensures !v.Bool? && !v.Int? ==> r == v
  {
    match v
    case Bool(b) => Str(if b then "true" else "false")
    case Int(i) => Str(IntText(i))
    case _ => v
  }

  /** Stringifying twice is stringifying once. */
  lemma StringifyIdempotent(v: Value)
    ensures Stringify(Stringify(v)) == Stringify(v)
  {
  }

  /** The attribute array the service receives. */
  function Sent(attributes: Attributes): Attributes {
    seq(|attributes|, i requires 0 <= i < |attributes| => (attributes[i].0, Stringify(attributes[i].1)))
  }

  /** `get_icon`. `pluginLoaded` is `class_exists('\OmniIcon\Plugin')`;
      `service` is the plugin's icon service, absent when fetching it threw
      or yielded nothing. The attribute loop rewrites the array in place,
      then the service gets the rewritten array. */
  method GetIcon(pluginLoaded: bool, service: Option<IconService>, iconName: string, attributes: Attributes)
    returns (r: Option<string>)
    ensures !pluginLoaded || ':' !in iconName || service.None? ==> r.None?
    ensures pluginLoaded && ':' in iconName && service.Some? ==>
      r == match service.value(iconName, Sent(attributes)) case Svg(markup) => Some(markup) case _ => None
  {
    if !pluginLoaded {
      return None;
    }
    ContainsChar(iconName, ':');
    if !Contains(iconName, ":") {
      return None;
    }
    if service.None? {
      return None;
    }
    var attrs := attributes;
    var i := 0;
    while i < |attrs|
      invariant i <= |attrs| == |attributes|
      invariant forall j :: 0 <= j < i ==> attrs[j] == (attributes[j].0, Stringify(attributes[j].1))
      invariant forall j :: i <= j < |attrs| ==> attrs[j] == attributes[j]
    {
      var (key, value) := attrs[i];
      if value.Bool? {
        attrs := attrs[i := (key, Str(if value.b then "true" else "false"))];
      } else if value.Int? {
        attrs := attrs[i := (key, Str(IntText(value.i)))];
      }
      i := i + 1;
    }
    assert attrs == Sent(attributes);
    var outcome := service.value(iconName, attrs);
    match outcome
    case Svg(markup) => return Some(markup);
    case NoIcon => return None;
    case Thrown => return None;
  }

  /** The service never sees a boolean or an integer, and keys, order and
      every other value reach it unchanged. */
  lemma SentAttributes(attributes: Attributes)
    ensures var sent := Sent(attributes);
      |sent| == |attributes|
      && (forall i :: 0 <= i < |sent| ==> sent[i].0 == attributes[i].0 && !sent[i].1.Bool? && !sent[i].1.Int?)
      && (forall i :: 0 <= i < |sent| && !attributes[i].1.Bool? && !attributes[i].1.Int? ==> sent[i] == attributes[i])
  {
  }
}
