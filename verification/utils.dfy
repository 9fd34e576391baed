/** The string helpers of `src/lib/utils.js`. */
module Utils {
  import opened Wrappers
  import opened Strings

  /** The arguments `filter(Boolean)` keeps: every truthy one, in order. */
  function Kept(args: seq<Option<string>>): (kept: seq<string>)
    ensures |kept| <= |args|
    ensures forall i :: 0 <= i < |kept| ==> kept[i] != ""
    ensures |kept| == 0 <==> forall i :: 0 <= i < |args| ==> !Truthy(args[i])
    // exactly the truthy arguments' strings are kept
    ensures forall s :: s in kept <==> exists i :: 0 <= i < |args| && Truthy(args[i]) && args[i].value == s
    decreases |args|
  {
    if |args| == 0 then []
    else
      assert forall i :: 1 <= i < |args| ==> args[i] == args[1..][i - 1];
      if Truthy(args[0]) then [args[0].value] + Kept(args[1..])
      else Kept(args[1..])
  }

  /** The filter distributes over concatenation, so the kept strings keep the arguments' order. */
  lemma {:induction false} KeptAppend(a: seq<Option<string>>, b: seq<Option<string>>)
    ensures Kept(a + b) == Kept(a) + Kept(b)
    decreases |a|
  {
    if |a| > 0 {
      assert (a + b)[1..] == a[1..] + b;
      KeptAppend(a[1..], b);
    } else {
      assert a + b == b;
    }
  }

  /**
   * `classNames(...a)`: the truthy arguments joined with single spaces. An argument
   * is a string or a falsy value (`false`, `null`, `undefined`), the latter written `None`.
   */
  function ClassNames(args: seq<Option<string>>): (r: string)
    ensures r == Join(Kept(args), " ")
    ensures r == "" <==> forall i :: 0 <= i < |args| ==> !Truthy(args[i])
  {
    JoinNonEmpty(Kept(args))
  }

  function JoinNonEmpty(parts: seq<string>): (r: string)
    requires forall i :: 0 <= i < |parts| ==> parts[i] != ""
    ensures r == Join(parts, " ")
    ensures r == "" <==> |parts| == 0
  {
    if |parts| <= 1 then Join(parts, " ") else parts[0] + " " + JoinNonEmpty(parts[1..])
  }

  /**
   * When no class name holds a space, the output splits back on single spaces into exactly
   * the truthy arguments, so nothing is lost, doubled or reordered.
   */
  lemma ClassNamesSplitsBack(args: seq<Option<string>>)
    requires forall i :: 0 <= i < |args| && args[i].Some? ==> ' ' !in args[i].value
    requires exists i :: 0 <= i < |args| && Truthy(args[i])
    ensures Split(ClassNames(args), ' ') == Kept(args)
  {
    var kept := Kept(args);
    KeptFrom(args);
    SplitJoin(kept, ' ');
  }

  lemma {:induction false} KeptFrom(args: seq<Option<string>>)
    requires forall i :: 0 <= i < |args| && args[i].Some? ==> ' ' !in args[i].value
    ensures forall j :: 0 <= j < |Kept(args)| ==> ' ' !in Kept(args)[j]
    decreases |args|
  {
    if |args| > 0 {
      assert forall i :: 1 <= i < |args| ==> args[i] == args[1..][i - 1];
      KeptFrom(args[1..]);
    }
  }

  /** `isValidPhone(phone)`: a missing or empty phone is invalid; otherwise at least ten decimal digits are needed. */
  function IsValidPhone(phone: Option<string>): (ok: bool)
    ensures !Truthy(phone) ==> !ok
    ensures ok <==> phone.Some? && |Digits(phone.value)| >= 10
  {
    if !Truthy(phone) then false
    else
      var cleaned := Digits(phone.value);
      |cleaned| >= 10
  }

  /** Inserting a character that is not a digit anywhere into a phone never changes the verdict. */
  lemma NonDigitIrrelevant(a: string, c: char, b: string)
    requires !IsDigit(c)
    ensures IsValidPhone(Some(a + [c] + b)) == IsValidPhone(Some(a + b))
  {
    DigitsAppend(a + [c], b);
    DigitsAppend(a, [c]);
    DigitsAppend(a, b);
    assert Digits([c]) == "";
    if a + b == "" {
      assert |Digits(a + [c] + b)| == 0;
    }
  }

  /** Every phone `isValidPhone` accepts is at least ten characters long. */
  lemma ValidPhoneIsLong(phone: string)
    requires IsValidPhone(Some(phone))
    ensures |phone| >= 10
  {
  }

  /** A six-digit phone is rejected although it is six characters long. */
  lemma SixDigitPhoneIsInvalid()
    ensures |"123456"| >= 6 && !IsValidPhone(Some("123456"))
  {
    assert AllDigits("123456");
    DigitsOfDigits("123456");
  }
}
