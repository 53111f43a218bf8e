/** Attribute (tag) value sanitising and the rate limiter for its warnings
    (AttributesUtils). The limiter's state is static in the Java class; here
    it is the state of one `WarningLimiter` object that every caller shares. */
module AttributesUtils {

  const AttributeMaxLength := 255
  /** At most this many "Error creating value" warnings between two resets. */
  const MaxWarningPrints := 10
  /** Milliseconds without a warning after which the counter is reset. */
  const WaitingTimeInMilliSeconds := 600000
  /** The value that replaces an invalid attribute value. */
  const Invalid := "<invalid>"

  predicate IsPrintableChar(ch: char)
  {
    ' ' <= ch <= '~'
  }

  /** Every character lies in the printable ASCII range 0x20..0x7E. */
  predicate Printable(s: string)
  {
    forall i :: 0 <= i < |s| ==> IsPrintableChar(s[i])
  }

  /** What `isAttributeValueValid` decides: short enough and printable. */
  predicate ValidAttributeValue(value: string)
  {
    |value| <= AttributeMaxLength && Printable(value)
  }

  /** The scan of `isPrintableString`: stops at the first non-printable character. */
  method IsPrintableString(str: string) returns (r: bool)
    ensures r <==> Printable(str)
  {
    var i := 0;
    while i < |str|
      invariant 0 <= i <= |str|
      invariant forall j :: 0 <= j < i ==> IsPrintableChar(str[j])
    {
      if !IsPrintableChar(str[i]) {
        return false;
      }
      i := i + 1;
    }
    return true;
  }

  /** The value `createAttributeValue` returns: the input itself when it is valid,
      "<invalid>" otherwise. The result is always a valid attribute value. */
  function AttributeValue(value: string): (r: string)
    ensures r == value <==> ValidAttributeValue(value)
    ensures !ValidAttributeValue(value) ==> r == Invalid
    ensures ValidAttributeValue(r)
  {
    assert ValidAttributeValue(Invalid) by {
      assert forall i :: 0 <= i < |Invalid| ==> IsPrintableChar(Invalid[i]);
    }
    if ValidAttributeValue(value) then value else Invalid
  }

  /** Sanitising twice is sanitising once. */
  lemma AttributeValueIdempotent(value: string)
    ensures AttributeValue(AttributeValue(value)) == AttributeValue(value)
  {
  }

  /** The cases of TagUtilsTest: a plain value is kept, a value over 255
      characters and a value holding U+007F become "<invalid>". */
  lemma AttributeValueExamples(tooLong: string)
    requires |tooLong| == 256
    ensures AttributeValue("my-tag-value") == "my-tag-value"
    ensures AttributeValue("non-printable-character-\U{7F}") == Invalid
    ensures AttributeValue(tooLong) == Invalid
  {
    var s := "non-printable-character-\U{7F}";
    assert !IsPrintableChar(s[|s| - 1]);
    var t := "my-tag-value";
    assert forall i :: 0 <= i < |t| ==> IsPrintableChar(t[i]);
  }

  /** What `printWarning` emits on one call. */
  datatype Warning = Silent | InvalidValueWarning | SuppressionNotice

  datatype WarningState = WarningState(printedWarningCounter: int, lastWarningTime: int, printFurtherMessage: bool)

  const InitialWarningState := WarningState(0, 0, true)

  /** The counter stays within 0..10, and the suppression notice can only have
      been used up once the counter has reached 10. */
  predicate WarningInvariant(s: WarningState)
  {
    && 0 <= s.printedWarningCounter <= MaxWarningPrints
    && (!s.printFurtherMessage ==> s.printedWarningCounter == MaxWarningPrints)
  }

  /** One call of `printWarning` at time `now` (its two clock reads
      are the same instant here): reset after 600000 ms of silence, then either
      a warning, the one-time suppression notice, or nothing. */
  function PrintWarningStep(s: WarningState, now: int): (WarningState, Warning)
  {
    var s1 := if now - s.lastWarningTime > WaitingTimeInMilliSeconds
              then WarningState(0, s.lastWarningTime, true) else s;
    if s1.printedWarningCounter < MaxWarningPrints then
      (WarningState(s1.printedWarningCounter + 1, now, s1.printFurtherMessage), InvalidValueWarning)
    else if s1.printFurtherMessage then
      (s1.(printFurtherMessage := false), SuppressionNotice)
    else
      (s1, Silent)
  }

  lemma PrintWarningStepKeepsInvariant(s: WarningState, now: int)
    requires WarningInvariant(s)
    ensures WarningInvariant(PrintWarningStep(s, now).0)
  {
  }

  /** After more than 600000 ms the counter is reset and a warning is printed
      again (TagUtilsTest, more than ten minutes). */
  lemma ResetRearmsWarnings(s: WarningState, now: int)
    requires now - s.lastWarningTime > WaitingTimeInMilliSeconds
    ensures PrintWarningStep(s, now) == (WarningState(1, now, true), InvalidValueWarning)
  {
  }

  /** A series of `printWarning` calls at the given times. */
  function RunWarnings(s: WarningState, times: seq<int>): (r: (WarningState, seq<Warning>))
    decreases |times|
  {
    if times == [] then (s, [])
    else
      var (s1, w) := PrintWarningStep(s, times[0]);
      var (s2, ws) := RunWarnings(s1, times[1..]);
      (s2, [w] + ws)
  }

  /** No call of the series finds more than 600000 ms since the last warning. */
  predicate NoReset(s: WarningState, times: seq<int>)
    decreases |times|
  {
    times == [] ||
    (times[0] - s.lastWarningTime <= WaitingTimeInMilliSeconds && NoReset(PrintWarningStep(s, times[0]).0, times[1..]))
  }

  function Count(ws: seq<Warning>, w: Warning): nat
  {
    if ws == [] then 0 else (if ws[0] == w then 1 else 0) + Count(ws[1..], w)
  }

  /** Between two resets at most ten "Error creating value" warnings and at most
      one "Further log messages are suppressed" notice are printed. */
  lemma {:induction false} WarningsBoundedWithoutReset(s: WarningState, times: seq<int>)
    requires WarningInvariant(s) && NoReset(s, times)
    ensures Count(RunWarnings(s, times).1, InvalidValueWarning) <= MaxWarningPrints - s.printedWarningCounter
    ensures Count(RunWarnings(s, times).1, SuppressionNotice) <= if s.printFurtherMessage then 1 else 0
    decreases |times|
  {
    if times != [] {
      var (s1, w) := PrintWarningStep(s, times[0]);
      WarningsBoundedWithoutReset(s1, times[1..]);
      var ws := RunWarnings(s, times).1;
      assert ws == [w] + RunWarnings(s1, times[1..]).1;
      assert ws[1..] == RunWarnings(s1, times[1..]).1;
    }
  }

  /** The rate limiter's state, shared by all callers of `createAttributeValue`. */
  class WarningLimiter {
    var printedWarningCounter: int
    var lastWarningTime: int
    var printFurtherMessage: bool

    function State(): WarningState
      reads this
    {
      WarningState(printedWarningCounter, lastWarningTime, printFurtherMessage)
    }

    ghost predicate Valid()
      reads this
    {
      WarningInvariant(State())
    }

    constructor ()
      ensures Valid() && State() == InitialWarningState
    {
      printedWarningCounter, lastWarningTime, printFurtherMessage := 0, 0, true;
    }

    method PrintWarning(now: int) returns (w: Warning)
      requires Valid()
      modifies this
      ensures Valid()
      ensures (State(), w) == PrintWarningStep(old(State()), now)
    {
      if now - lastWarningTime > WaitingTimeInMilliSeconds {
        printedWarningCounter := 0;
        printFurtherMessage := true;
      }
      if printedWarningCounter < MaxWarningPrints {
        w := InvalidValueWarning;
        printedWarningCounter := printedWarningCounter + 1;
        lastWarningTime := now;
      } else if printFurtherMessage {
        w := SuppressionNotice;
        printFurtherMessage := false;
      } else {
        w := Silent;
      }
    }

    /** `createAttributeValue(key, value)` at time `now`: a valid value is returned
        unchanged and never touches the warning state; an invalid one becomes
        "<invalid>" after one step of the rate limiter. */
    method CreateAttributeValue(attributeKey: string, value: string, now: int) returns (r: string, w: Warning)
      requires Valid()
      modifies this
      ensures Valid()
      ensures r == AttributeValue(value)
      ensures ValidAttributeValue(value) ==> w == Silent && State() == old(State())
      ensures !ValidAttributeValue(value) ==> (State(), w) == PrintWarningStep(old(State()), now)
    {
      var printable := IsPrintableString(value);
      if |value| <= AttributeMaxLength && printable {
        return value, Silent;
      }
      w := PrintWarning(now);
      r := Invalid;
    }
  }
}
