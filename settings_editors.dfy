// The admin settings editors: the bonus-deadline (DD.MM) input sanitiser and
// validator with the save guards of the date settings page, and the price
// sanitiser, save validation and price-list merge of the price settings page.

module DateSettings {
  import opened Wrappers
  import opened Text
  import Lists

  predicate IsDateChar(c: char)
  {
    IsDigit(c) || c == '.'
  }

  predicate AllDigits(s: string)
  {
    forall i :: 0 <= i < |s| ==> IsDigit(s[i])
  }

  /** `^(\d{1,2})\.(\d{1,2})$` with the dot at index i (1 or 2). */
  predicate SplitAt(s: string, i: nat)
  {
    i < |s| && s[i] == '.' && 1 <= i <= 2 && AllDigits(s[..i])
    && 1 <= |s| - i - 1 <= 2 && AllDigits(s[i + 1..])
  }

  predicate MatchesDatePattern(s: string)
  {
    SplitAt(s, 1) || SplitAt(s, 2)
  }

  /** `value.replace(/[^\d.]/g, '')` followed by `slice(0, 5)` when longer. */
  function Sanitized(input: string): (v: string)
    ensures |v| <= 5
    ensures forall i :: 0 <= i < |v| ==> IsDateChar(v[i])
    ensures v <= Lists.Filter(input, IsDateChar)
    ensures |v| == if |Lists.Filter(input, IsDateChar)| > 5 then 5 else |Lists.Filter(input, IsDateChar)|
  {
    var kept := Lists.Filter(input, IsDateChar);
    if |kept| > 5 then kept[..5] else kept
  }

  /** A sanitised value is stable: sanitising it again leaves it as it is. */
  lemma SanitizedIsStable(input: string)
    ensures Sanitized(Sanitized(input)) == Sanitized(input)
  {
    FilterKeepsAll(Sanitized(input));
  }

  lemma {:induction false} FilterKeepsAll(s: string)
    requires forall i :: 0 <= i < |s| ==> IsDateChar(s[i])
    ensures Lists.Filter(s, IsDateChar) == s
  {
    if |s| > 0 {
      FilterKeepsAll(s[1..]);
    }
  }

  /**
   * handleInputChange for the bonus_deadline key: Some(value) is the new edit
   * value, None means the keystroke is rejected and the edit value stays.
   */
  function DeadlineInput(input: string): (r: Option<string>)
    ensures r.Some? ==> |r.value| <= 5 && forall i :: 0 <= i < |r.value| ==> IsDateChar(r.value[i])
    ensures |Sanitized(input)| == 2 && '.' !in Sanitized(input) ==> r == Some(Sanitized(input) + ".")
    ensures !(|Sanitized(input)| == 2 && '.' !in Sanitized(input)) ==>
      (r.None? <==> |Sanitized(input)| == 5 && !MatchesDatePattern(Sanitized(input)))
    ensures r.Some? && !(|Sanitized(input)| == 2 && '.' !in Sanitized(input)) ==> r == Some(Sanitized(input))
    ensures r.Some? && |r.value| == 5 ==> MatchesDatePattern(r.value)
  {
    var v := Sanitized(input);
    var v' := if |v| == 2 && '.' !in v then v + "." else v;
    if |v'| == 5 && !MatchesDatePattern(v') then None else Some(v')
  }

  /** handleInputChange for any key: only bonus_deadline is rewritten. */
  function InputValue(key: string, input: string): (r: Option<string>)
    ensures key != "bonus_deadline" ==> r == Some(input)
    ensures key == "bonus_deadline" ==> r == DeadlineInput(input)
  {
    if key == "bonus_deadline" then DeadlineInput(input) else Some(input)
  }

  function DigitValue(c: char): (v: nat)
    requires IsDigit(c)
    ensures v <= 9
  {
    c as int - '0' as int
  }

  /** parseInt of one or two digits. */
  function NumberValue(s: string): (v: nat)
    requires 1 <= |s| <= 2 && AllDigits(s)
    ensures v <= 99
  {
    if |s| == 1 then DigitValue(s[0]) else 10 * DigitValue(s[0]) + DigitValue(s[1])
  }

  /** The two capture groups of the date pattern. */
  function DayPart(s: string): (d: string)
    requires MatchesDatePattern(s)
    ensures 1 <= |d| <= 2 && AllDigits(d)
  {
    if SplitAt(s, 1) then s[..1] else s[..2]
  }

  function MonthPart(s: string): (m: string)
    requires MatchesDatePattern(s)
    ensures 1 <= |m| <= 2 && AllDigits(m)
  {
    if SplitAt(s, 1) then s[2..] else s[3..]
  }

  /** validateDateInput. */
  predicate ValidDate(s: string)
  {
    && |s| == 5 && MatchesDatePattern(s)
    && 1 <= NumberValue(DayPart(s)) <= 31 && 1 <= NumberValue(MonthPart(s)) <= 12
  }

  /** The accepted strings are exactly DD.MM with day 1..31 and month 1..12. */
  lemma ValidDateIsDayMonth(s: string)
    ensures ValidDate(s) <==>
      && |s| == 5 && IsDigit(s[0]) && IsDigit(s[1]) && s[2] == '.' && IsDigit(s[3]) && IsDigit(s[4])
      && 1 <= 10 * DigitValue(s[0]) + DigitValue(s[1]) <= 31
      && 1 <= 10 * DigitValue(s[3]) + DigitValue(s[4]) <= 12
  {
    if |s| == 5 {
      if IsDigit(s[0]) && IsDigit(s[1]) && s[2] == '.' && IsDigit(s[3]) && IsDigit(s[4]) {
        assert SplitAt(s, 2) by {
          assert s[..2] == [s[0], s[1]];
          assert s[3..] == [s[3], s[4]];
        }
      }
      if SplitAt(s, 2) {
        assert s[..2][0] == s[0] && s[..2][1] == s[1];
        assert s[3..][0] == s[3] && s[3..][1] == s[4];
      }
    }
  }

  /** Deleting the dot of "DD." restores it: the two digits get it appended again. */
  lemma BackspaceRestoresDot()
    ensures DeadlineInput("02") == Some("02.")
  {
    assert "02"[1..] == "2" && "2"[1..] == [];
    assert Lists.Filter("02", IsDateChar) == "02";
    assert Sanitized("02") == "02";
    assert '.' !in "02";
    assert "02" + "." == "02.";
  }

  datatype SaveCheck = NoUser | InvalidDeadline | BlankBonusText | Proceed

  /** The guards of handleSave before the update is sent. */
  function SaveDecision(hasUserId: bool, key: string, editValue: string): (d: SaveCheck)
    ensures d == Proceed <==> (hasUserId
      && !(key == "bonus_deadline" && |editValue| > 0 && !ValidDate(editValue))
      && !(key == "bonus_text" && IsBlank(editValue)))
    ensures d == InvalidDeadline ==> key == "bonus_deadline"
    ensures d == BlankBonusText ==> key == "bonus_text"
  {
    if !hasUserId then NoUser
    else if key == "bonus_deadline" && |editValue| > 0 && !ValidDate(editValue) then InvalidDeadline
    else if key == "bonus_text" && |Trim(editValue)| == 0 then BlankBonusText
    else Proceed
  }

  /**
   * The client's guards let an empty deadline through to the update request;
   * the server's settings endpoint, which is not part of this model, answers
   * an empty value with 400.
   */
  lemma EmptyDeadlineSaves()
    ensures SaveDecision(true, "bonus_deadline", "") == Proceed
  {
  }

  /** The editing key and edit value: a successful save closes the editor. */
  datatype Editor = Editor(editingKey: Option<string>, editValue: string)

  function AfterSave(e: Editor, success: bool): (e': Editor)
    ensures success ==> e' == Editor(None, "")
    ensures !success ==> e' == e
  {
    if success then Editor(None, "") else e
  }
}

module PriceSettings {
  import opened Wrappers
  import opened Text
  import Lists

  predicate IsPriceChar(c: char)
  {
    IsDigit(c) || c == '.' || c == ','
  }

  /** handleInputChange: for tariff_price keep digits, '.' and ',' and cut to 20 characters. */
  function InputValue(key: string, input: string): (v: string)
    ensures key != "tariff_price" ==> v == input
    ensures key == "tariff_price" ==> |v| <= 20 && forall i :: 0 <= i < |v| ==> IsPriceChar(v[i])
    ensures key == "tariff_price" ==>
      var kept := Lists.Filter(input, IsPriceChar);
      v == kept[..if |kept| > 20 then 20 else |kept|]
  {
    if key == "tariff_price" then
      var kept := Lists.Filter(input, IsPriceChar);
      if |kept| > 20 then kept[..20] else kept
    else input
  }

  /** A sanitised price is stable: feeding it back in leaves it as it is. */
  lemma {:induction false} SanitizedIsStable(input: string)
    ensures InputValue("tariff_price", InputValue("tariff_price", input)) == InputValue("tariff_price", input)
  {
    var v := InputValue("tariff_price", input);
    FilterKeepsAll(v);
  }

  lemma {:induction false} FilterKeepsAll(s: string)
    requires forall i :: 0 <= i < |s| ==> IsPriceChar(s[i])
    ensures Lists.Filter(s, IsPriceChar) == s
  {
    if |s| > 0 {
      FilterKeepsAll(s[1..]);
    }
  }

  datatype TariffPrice = TariffPrice(id: string, tariffKey: string, title: string, price: string,
                                     originalPrice: string, description: string)

  /** The edited fields; None is a field not present in the edit object. */
  datatype PriceEdit = PriceEdit(title: Option<string>, price: Option<string>,
                                 originalPrice: Option<string>, description: Option<string>)

  /** `{ ...price, ...editPriceData }`. */
  function Overlay(p: TariffPrice, e: PriceEdit): (q: TariffPrice)
    ensures q.id == p.id && q.tariffKey == p.tariffKey
    ensures q.title == e.title.UnwrapOr(p.title) && q.price == e.price.UnwrapOr(p.price)
    ensures q.originalPrice == e.originalPrice.UnwrapOr(p.originalPrice)
    ensures q.description == e.description.UnwrapOr(p.description)
  {
    TariffPrice(p.id, p.tariffKey, e.title.UnwrapOr(p.title), e.price.UnwrapOr(p.price),
                e.originalPrice.UnwrapOr(p.originalPrice), e.description.UnwrapOr(p.description))
  }

  datatype SaveCheck = NotEditing | BlankTitle | BlankPrice | BlankOriginalPrice | Proceed

  /** The guards of handleSavePrice, in order. */
  function SaveDecision(hasUserId: bool, editing: Option<TariffPrice>, e: PriceEdit): (d: SaveCheck)
    ensures d == Proceed <==> (hasUserId && editing.Some?
      && !IsBlank(e.title.UnwrapOr("")) && !IsBlank(e.price.UnwrapOr("")) && !IsBlank(e.originalPrice.UnwrapOr("")))
    ensures d == NotEditing <==> !hasUserId || editing.None?
  {
    if !hasUserId || editing.None? then NotEditing
    else if Trim(e.title.UnwrapOr("")) == [] then BlankTitle
    else if Trim(e.price.UnwrapOr("")) == [] then BlankPrice
    else if Trim(e.originalPrice.UnwrapOr("")) == [] then BlankOriginalPrice
    else Proceed
  }

  /** The price list sent to the server: the edited entry overlaid with the edit. */
  function MergedPrices(prices: seq<TariffPrice>, editingId: string, e: PriceEdit): (r: seq<TariffPrice>)
    ensures |r| == |prices|
    ensures forall i :: 0 <= i < |prices| && prices[i].id != editingId ==> r[i] == prices[i]
    ensures forall i :: 0 <= i < |prices| && prices[i].id == editingId ==> r[i] == Overlay(prices[i], e)
    ensures forall i :: 0 <= i < |prices| ==> r[i].id == prices[i].id && r[i].tariffKey == prices[i].tariffKey
  {
    Lists.MapWhere(prices, (p: TariffPrice) => p.id == editingId, (p: TariffPrice) => Overlay(p, e))
  }

  /** The price editor's state: a successful save clears it, a failed one keeps it. */
  datatype Editor = Editor(editingPrice: Option<TariffPrice>, edit: PriceEdit)

  function AfterSave(ed: Editor, success: bool): (ed': Editor)
    ensures success ==> ed'.editingPrice.None? && ed'.edit == PriceEdit(None, None, None, None)
    ensures !success ==> ed' == ed
  {
    if success then Editor(None, PriceEdit(None, None, None, None)) else ed
  }
}
