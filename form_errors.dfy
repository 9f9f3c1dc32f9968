/**
 * The error list kept by the login and registration forms: entries that name
 * a form field and entries that do not ("general" errors), and the three
 * operations both forms perform on it: look up a field's first message, list
 * the general errors, and drop every error of one field after an edit.
 * The field type is a parameter so that each form uses its own field names.
 * The e-mail rule, identical in both forms, is stated here once.
 */
module FormErrors {
  import opened Wrappers
  import opened Text

  /** `{ field?: string; message: string }`: `field == None` is a general error. */
  datatype FieldError<F> = FieldError(field: Option<F>, message: string)

  /** `errors.some(e => e.field === f)` */
  predicate HasFieldError<F(==,!new)>(errs: seq<FieldError<F>>, f: F) {
    exists i :: 0 <= i < |errs| && errs[i].field == Some(f)
  }

  /** `errors.find(e => e.field === f)?.message` */
  function FindFieldError<F(==,!new)>(errs: seq<FieldError<F>>, f: F): (r: Option<string>)
    ensures r == None <==> !HasFieldError(errs, f)
    ensures r.Some? ==> exists i :: 0 <= i < |errs| && errs[i] == FieldError(Some(f), r.value)
                                    && forall j :: 0 <= j < i ==> errs[j].field != Some(f)
  {
    if errs == [] then None
    else if errs[0].field == Some(f) then Some(errs[0].message)
    else
      var r := FindFieldError(errs[1..], f);
      assert forall i :: 0 < i < |errs| ==> errs[i] == errs[1..][i - 1];
      r
  }

  /** `errors.filter(e => !e.field)`: the general errors, in their original order. */
  function GeneralErrors<F(!new)>(errs: seq<FieldError<F>>): (r: seq<FieldError<F>>)
    ensures forall e :: e in r <==> e in errs && e.field == None
    ensures |r| <= |errs|
  {
    if errs == [] then []
    else (if errs[0].field == None then [errs[0]] else []) + GeneralErrors(errs[1..])
  }

  /** `errors.filter(e => e.field !== f)`: every error of field `f` dropped. */
  function PruneField<F(==,!new)>(errs: seq<FieldError<F>>, f: F): (r: seq<FieldError<F>>)
    ensures forall e :: e in r <==> e in errs && e.field != Some(f)
    ensures |r| <= |errs|
  {
    if errs == [] then []
    else (if errs[0].field != Some(f) then [errs[0]] else []) + PruneField(errs[1..], f)
  }

  /** Filtering keeps relative order: it distributes over concatenation. */
  lemma {:induction false} PruneFieldAppend<F(!new)>(a: seq<FieldError<F>>, b: seq<FieldError<F>>, f: F)
    ensures PruneField(a + b, f) == PruneField(a, f) + PruneField(b, f)
  {
    if a == [] {
      assert a + b == b;
    } else {
      assert (a + b)[0] == a[0] && (a + b)[1..] == a[1..] + b;
      PruneFieldAppend(a[1..], b, f);
    }
  }

  lemma {:induction false} GeneralErrorsAppend<F(!new)>(a: seq<FieldError<F>>, b: seq<FieldError<F>>)
    ensures GeneralErrors(a + b) == GeneralErrors(a) + GeneralErrors(b)
  {
    if a == [] {
      assert a + b == b;
    } else {
      assert (a + b)[0] == a[0] && (a + b)[1..] == a[1..] + b;
      GeneralErrorsAppend(a[1..], b);
    }
  }

  /** With no error of field `f` present, pruning `f` changes nothing (the guard before `setErrors`). */
  lemma {:induction false} PruneFieldAbsent<F(!new)>(errs: seq<FieldError<F>>, f: F)
    requires !HasFieldError(errs, f)
    ensures PruneField(errs, f) == errs
  {
    if errs != [] {
      assert errs[0].field != Some(f);
      assert !HasFieldError(errs[1..], f) by {
        forall i | 0 <= i < |errs| - 1 ensures errs[1..][i].field != Some(f) {
          assert errs[1..][i] == errs[i + 1];
        }
      }
      PruneFieldAbsent(errs[1..], f);
      assert errs == [errs[0]] + errs[1..];
    }
  }

  /** After pruning `f`, no message remains for `f`. */
  lemma PruneFieldClears<F(!new)>(errs: seq<FieldError<F>>, f: F)
    ensures FindFieldError(PruneField(errs, f), f) == None
  {
    var r := PruneField(errs, f);
    forall i | 0 <= i < |r| ensures r[i].field != Some(f) {
      assert r[i] in r;
    }
  }

  /** Pruning `f` leaves every other field's first message as it was. */
  lemma {:induction false} PruneFieldKeepsOthers<F(!new)>(errs: seq<FieldError<F>>, f: F, g: F)
    requires g != f
    ensures FindFieldError(PruneField(errs, f), g) == FindFieldError(errs, g)
  {
    if errs != [] {
      PruneFieldKeepsOthers(errs[1..], f, g);
      var rest := PruneField(errs[1..], f);
      if errs[0].field != Some(f) {
        var r := [errs[0]] + rest;
        assert PruneField(errs, f) == r;
        assert r[0] == errs[0] && r[1..] == rest;
      } else {
        assert PruneField(errs, f) == rest;
      }
    }
  }

  /** Pruning a field leaves the general errors as they were. */
  lemma {:induction false} PruneFieldKeepsGeneral<F(!new)>(errs: seq<FieldError<F>>, f: F)
    ensures GeneralErrors(PruneField(errs, f)) == GeneralErrors(errs)
  {
    if errs != [] {
      PruneFieldKeepsGeneral(errs[1..], f);
      var head := if errs[0].field != Some(f) then [errs[0]] else [];
      GeneralErrorsAppend(head, PruneField(errs[1..], f));
      assert errs == [errs[0]] + errs[1..];
      GeneralErrorsAppend([errs[0]], errs[1..]);
    }
  }

  // ------------------------------------------------ building error lists

  /** What one `if (…) newErrors.push({ field, message })` contributes: nothing, or one entry. */
  function Entry<F>(f: Option<F>, m: Option<string>): seq<FieldError<F>> {
    if m.Some? then [FieldError(f, m.value)] else []
  }

  /** An entry is general exactly when its field is absent. */
  lemma GeneralErrorsEntry<F(!new)>(f: Option<F>, m: Option<string>)
    ensures GeneralErrors(Entry(f, m)) == if f.None? then Entry(f, m) else []
  {
  }

  /** Looking up a field in an entry followed by more errors. */
  lemma FindFieldErrorEntry<F(!new)>(g: Option<F>, m: Option<string>, rest: seq<FieldError<F>>, f: F)
    ensures FindFieldError(Entry(g, m) + rest, f) == if g == Some(f) && m.Some? then m else FindFieldError(rest, f)
  {
    if m.Some? {
      var s := Entry(g, m) + rest;
      assert s[0] == FieldError(g, m.value) && s[1..] == rest;
    } else {
      assert Entry(g, m) + rest == rest;
    }
  }

  /** The entries appear in strictly increasing order of `rank` of their fields. */
  ghost predicate Ranked<F>(errs: seq<FieldError<F>>, rank: Option<F> -> nat) {
    forall i, j :: 0 <= i < j < |errs| ==> rank(errs[i].field) < rank(errs[j].field)
  }

  /** Every entry's field ranks above `k`. */
  ghost predicate RanksAbove<F>(errs: seq<FieldError<F>>, rank: Option<F> -> nat, k: int) {
    forall i :: 0 <= i < |errs| ==> k < rank(errs[i].field)
  }

  /** Putting an entry of a lower-ranked field in front keeps the list ranked. */
  lemma RankedEntry<F>(g: Option<F>, m: Option<string>, rest: seq<FieldError<F>>, rank: Option<F> -> nat)
    requires Ranked(rest, rank) && RanksAbove(rest, rank, rank(g))
    ensures Ranked(Entry(g, m) + rest, rank)
    ensures forall k :: k < rank(g) ==> RanksAbove(Entry(g, m) + rest, rank, k)
  {
    var s := Entry(g, m) + rest;
    if m.Some? {
      assert s[0].field == g;
      assert forall i :: 0 < i < |s| ==> s[i] == rest[i - 1];
    } else {
      assert s == rest;
    }
  }

  /** In a ranked list with an injective rank no field occurs twice. */
  lemma RankedDistinctFields<F>(errs: seq<FieldError<F>>, rank: Option<F> -> nat)
    requires Ranked(errs, rank)
    ensures forall i, j :: 0 <= i < j < |errs| ==> errs[i].field != errs[j].field
  {
  }

  // ------------------------------------------------------ the e-mail rule

  const MsgEmailMissing := "請輸入電子信箱"
  const MsgEmailFormat := "電子信箱格式不正確"

  /**
   * The e-mail check of both forms: empty, or not matching `\S+@\S+\.\S+`.
   * Its three outcomes are stated on the regular expression itself.
   */
  function EmailRule(email: string): (r: Option<string>)
    ensures r == Some(MsgEmailMissing) <==> email == ""
    ensures r == Some(MsgEmailFormat) <==> email != "" && !EmailRegexTest(email)
    ensures r == None <==> EmailRegexTest(email)
  {
    EmailShapeIsRegex(email);
    assert HasEmailShape(email) ==> email != "" by {
      if HasEmailShape(email) { EmailShapeNonEmpty(email); }
    }
    if email == "" then Some(MsgEmailMissing)
    else if !HasEmailShape(email) then Some(MsgEmailFormat)
    else None
  }
}
