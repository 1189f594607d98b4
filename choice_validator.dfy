/** The all-or-nothing schema check on a list of raw choices: every element
    must be an object whose `text` is a non-blank string and whose `correct`
    is a boolean or absent. The check also writes into the list: an element
    whose `text` is a number or a boolean gets that `text` replaced by its
    string form, but the element is still judged on the value read before
    the write, so it fails anyway. */
module ChoiceValidator {
  import opened Base
  import opened Text
  import opened JsValues

  function TextOf(c: JsValue): JsValue
  {
    Get(c, "text")
  }

  function CorrectOf(c: JsValue): JsValue
  {
    Get(c, "correct")
  }

  /** The callback given to `every`, judged on the element as it was read:
      a truthy object, a string `text` that is not blank after trimming, and
      a `correct` that is a boolean or undefined. A string is blank after
      `trim()` exactly when it is all whitespace (`TrimEmptyIffAllSpace`). */
  predicate ChoicePasses(c: JsValue)
  {
    && IsObject(c)
    && TextOf(c).Str? && !AllSpace(TextOf(c).s)
    && (CorrectOf(c).Undefined? || CorrectOf(c).Bool?)
  }

  /** The element after the callback's write: an object whose `text` is a
      number or a boolean has it replaced by `text.toString()`. */
  function Coerced(c: JsValue): JsValue
  {
    if c.Obj? && (TextOf(c).Num? || TextOf(c).Bool?) then
      Obj(c.fields["text" := Str(Display(TextOf(c)))])
    else c
  }

  /** The verdict of `validateChoices` on an array: it is non-empty and every
      element passes. */
  predicate Validates(s: seq<JsValue>)
  {
    |s| > 0 && forall k :: 0 <= k < |s| ==> ChoicePasses(s[k])
  }

  /** The element at which `every` stops: the first one that fails. */
  function FirstFailure(s: seq<JsValue>): (r: Option<nat>)
    ensures r.Some? ==> r.value < |s| && !ChoicePasses(s[r.value])
    ensures r.Some? ==> forall k :: 0 <= k < r.value ==> ChoicePasses(s[k])
    ensures r.None? <==> forall k :: 0 <= k < |s| ==> ChoicePasses(s[k])
  {
    if s == [] then None
    else if !ChoicePasses(s[0]) then Some(0)
    else
      match FirstFailure(s[1..])
      case None => None
      case Some(i) => Some(i + 1)
  }

  /** The list as `validateChoices` leaves it: `every` visits the elements up
      to the first failing one, and the only one of those it can write to is
      that failing element. So length and order never change, at most one
      element changes (the first failing one, whose `text` was a number or a
      boolean), and a list that validates is left exactly as it was. */
  function AfterValidation(s: seq<JsValue>): (r: seq<JsValue>)
    ensures |r| == |s|
    ensures Validates(s) ==> r == s
    ensures forall k :: 0 <= k < |s| && r[k] != s[k] ==>
      FirstFailure(s) == Some(k) && s[k].Obj? && (TextOf(s[k]).Num? || TextOf(s[k]).Bool?)
    ensures forall k :: 0 <= k < |s| ==> r[k] == s[k] || r[k] == Coerced(s[k])
  {
    match FirstFailure(s)
    case None => s
    case Some(i) => s[i := Coerced(s[i])]
  }

  /** `validateChoices(choices)`. A null array reference stands for an
      argument that is not an array. The loop is `every`: it stops at the
      first failing element, after the coercion of that element's `text`. */
  method ValidateChoices(choices: array?<JsValue>) returns (ok: bool)
    modifies choices
    ensures choices == null ==> !ok
    ensures choices != null ==> ok == Validates(old(choices[..]))
    ensures choices != null ==> choices[..] == AfterValidation(old(choices[..]))
  {
    if choices == null || choices.Length == 0 {
      return false;
    }
    var i := 0;
    while i < choices.Length
      invariant 0 <= i <= choices.Length
      invariant choices[..] == old(choices[..])
      invariant forall k :: 0 <= k < i ==> ChoicePasses(choices[k])
    {
      var choice := choices[i];
      if !IsObject(choice) {
        assert FirstFailure(choices[..]) == Some(i);
        return false;
      }
      var text := TextOf(choice);
      var correct := CorrectOf(choice);
      if text.Num? || text.Bool? {
        choices[i] := Obj(choice.fields["text" := Str(Display(text))]);
      }
      if !text.Str? || AllSpace(text.s) {
        assert FirstFailure(old(choices[..])) == Some(i);
        return false;
      }
      if !correct.Undefined? && !correct.Bool? {
        assert FirstFailure(choices[..]) == Some(i);
        return false;
      }
      i := i + 1;
    }
    ok := true;
  }

  /** A number or boolean `text` is rewritten into a string that would pass
      the text check, yet the element fails, because the check reads the
      value from before the write. */
  lemma CoercedTextStillFails(c: JsValue)
    requires c.Obj? && (TextOf(c).Num? || TextOf(c).Bool?)
    ensures !ChoicePasses(c)
    ensures Coerced(c) != c
    ensures TextOf(Coerced(c)) == Str(Display(TextOf(c)))
    ensures Trim(TextOf(Coerced(c)).s) == Display(TextOf(c)) != ""
  {
    var t := Display(TextOf(c));
    assert TextOf(Coerced(c)) == Str(t);
    TrimOfTrimmed(t);
  }

  /** A list whose only fault is one number-valued `text` is rejected, and
      the same list validates when checked a second time, since the first
      check repaired it. */
  lemma RevalidationAfterCoercion(s: seq<JsValue>, i: nat)
    requires i < |s| && s[i].Obj? && TextOf(s[i]).Num?
    requires CorrectOf(s[i]).Undefined? || CorrectOf(s[i]).Bool?
    requires forall k :: 0 <= k < |s| && k != i ==> ChoicePasses(s[k])
    ensures !Validates(s)
    ensures Validates(AfterValidation(s))
  {
    CoercedTextStillFails(s[i]);
    assert FirstFailure(s) == Some(i);
    CoercedNumberPasses(s[i]);
    var r := s[i := Coerced(s[i])];
    assert AfterValidation(s) == r;
    forall k | 0 <= k < |r|
      ensures ChoicePasses(r[k])
    {
      if k != i {
        assert r[k] == s[k];
      }
    }
  }

  /** Once its number `text` has been written back as a string, an element
      whose `correct` is acceptable passes. */
  lemma CoercedNumberPasses(c: JsValue)
    requires c.Obj? && TextOf(c).Num?
    requires CorrectOf(c).Undefined? || CorrectOf(c).Bool?
    ensures ChoicePasses(Coerced(c))
  {
    CoercedTextStillFails(c);
    TrimEmptyIffAllSpace(TextOf(Coerced(c)).s);
    assert CorrectOf(Coerced(c)) == CorrectOf(c);
  }
}
