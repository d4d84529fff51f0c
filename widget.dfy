/**
 * The content of a widget block (`BlockContentWidget`): the constructor
 * normalises raw props, each field falling back to its default when the prop
 * is missing, zero, non-numeric or otherwise falsy.
 */
module Widget {
  import opened JsValues

  /** `I.WidgetLayout.Link`. */
  const LAYOUT_LINK := 0
  /** `I.WidgetSection.Pin`. */
  const SECTION_PIN := 0

  /** The props object handed to the constructor, each field as it arrives. */
  datatype RawProps = RawProps(layout: JsValue, limit: JsValue, viewId: JsValue, autoAdded: JsValue, section: JsValue)

  /** The normalised fields. */
  datatype WidgetContent = WidgetContent(layout: int, limit: int, viewId: string, autoAdded: bool, section: JsValue)

  /** `Number(v) || d` for an integer default. */
  function NumberOr(v: JsValue, d: int): (r: int)
    ensures ToNumber(v).Int? && ToNumber(v).value != 0 ==> r == ToNumber(v).value
    ensures ToNumber(v) == NaN || ToNumber(v) == Int(0) ==> r == d
  {
    match ToNumber(v)
    case Int(n) => if n != 0 then n else d
    case NaN => d
  }

  /** The constructor of `BlockContentWidget`. */
  function FromProps(p: RawProps): (w: WidgetContent)
    ensures ToNumber(p.layout).Int? && ToNumber(p.layout).value != 0 ==> w.layout == ToNumber(p.layout).value
    ensures p.layout.Undefined? || ToNumber(p.layout) == NaN || ToNumber(p.layout) == Int(0) ==> w.layout == LAYOUT_LINK
    ensures ToNumber(p.limit).Int? ==> w.limit == ToNumber(p.limit).value
    ensures p.limit.Undefined? || ToNumber(p.limit) == NaN ==> w.limit == 0
    ensures Truthy(p.viewId) ==> w.viewId == ToStr(p.viewId)
    ensures !Truthy(p.viewId) ==> w.viewId == ""
    ensures w.autoAdded <==> Truthy(p.autoAdded)
    ensures Truthy(p.section) ==> w.section == p.section
    ensures !Truthy(p.section) ==> w.section == Num(Int(SECTION_PIN))
  {
    WidgetContent(
      NumberOr(p.layout, LAYOUT_LINK),
      NumberOr(p.limit, 0),
      ToStr(if Truthy(p.viewId) then p.viewId else Str("")),
      Truthy(p.autoAdded),
      if Truthy(p.section) then p.section else Num(Int(SECTION_PIN)))
  }

  /** The props that describe a widget content, as a block carries them. */
  function ToProps(w: WidgetContent): RawProps {
    RawProps(Num(Int(w.layout)), Num(Int(w.limit)), Str(w.viewId), Bool(w.autoAdded), w.section)
  }

  /** A content the constructor can produce: a falsy section is only ever the default. */
  predicate Normalized(w: WidgetContent) {
    Truthy(w.section) || w.section == Num(Int(SECTION_PIN))
  }

  /** Every constructed content is normalised. */
  lemma FromPropsNormalized(p: RawProps)
    ensures Normalized(FromProps(p))
  {
  }

  /** Constructing from the props of a normalised content gives it back, so normalising twice changes nothing. */
  lemma RoundTrip(w: WidgetContent)
    requires Normalized(w)
    ensures FromProps(ToProps(w)) == w
  {
    assert ToNumber(Num(Int(w.layout))) == Int(w.layout);
    assert ToNumber(Num(Int(w.limit))) == Int(w.limit);
  }

  /** Normalisation is idempotent. */
  lemma Idempotent(p: RawProps)
    ensures FromProps(ToProps(FromProps(p))) == FromProps(p)
  {
    FromPropsNormalized(p);
    RoundTrip(FromProps(p));
  }

  /** A numeric string prop reads as its number: `Number(String(n))` is `n`. */
  lemma StringLimit(p: RawProps, n: int)
    requires p.limit == Str(IntString(n))
    ensures FromProps(p).limit == n
  {
    NumberOfStringRoundTrip(n);
  }
}
