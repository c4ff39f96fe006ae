/**
 * The part of Mongoose's document validation the two schemas use, for one
 * path at a time. A path's value is `None` when it is undefined. `required`
 * is checked first; the other validators follow in the order the schema
 * declares them, and the first one that fails gives the path's error.
 * Validators other than `required` let an undefined value through, and
 * `match` also lets the empty string through.
 */
module Mongoose {
  import opened Wrappers
  import opened JsText
  import opened SeqFacts

  /**
   * A validator of a String path. `Required(None)` is `required: true` with
   * Mongoose's own message; `Match` carries the pattern as a predicate.
   */
  datatype Rule =
    | Required(custom: Option<string>)
    | MinLength(min: nat, message: string)
    | MaxLength(max: nat, message: string)
    | Match(matches: string -> bool, message: string)
    | Enum(values: seq<string>)

  /** A String path passes `required` only with a non-empty string. */
  predicate Passes(rule: Rule, v: Option<string>) {
    match rule
    case Required(_) => v.Some? && v.value != []
    case MinLength(min, _) => v.None? || Utf16Length(v.value) >= min
    case MaxLength(max, _) => v.None? || Utf16Length(v.value) <= max
    case Match(matches, _) => v.None? || v.value == [] || matches(v.value)
    case Enum(values) => v.None? || v.value in values
  }

  /** The message of `required`, Mongoose's default when the schema gives none. */
  function RequiredMessage(path: string, message: Option<string>): string {
    match message
    case Some(m) => m
    case None => "Path `" + path + "` is required."
  }

  /** The error message of a failing rule; the enum message names the value and the path. */
  function Message(rule: Rule, path: string, v: Option<string>): string {
    match rule
    case Required(m) => RequiredMessage(path, m)
    case MinLength(_, m) => m
    case MaxLength(_, m) => m
    case Match(_, m) => m
    case Enum(_) => EnumMessage(v.GetOr("undefined"), path)
  }

  /** Mongoose's enum message, naming the value and the path. */
  function EnumMessage(value: string, path: string): string {
    "`" + value + "` is not a valid enum value for path `" + path + "`."
  }

  /** The path's error: the message of the first rule the value fails, if any. */
  function FirstFailure(path: string, rules: seq<Rule>, v: Option<string>): Option<string> {
    if rules == [] then None
    else if !Passes(rules[0], v) then Some(Message(rules[0], path, v))
    else FirstFailure(path, rules[1..], v)
  }

  /** No error exactly when every rule passes. */
  lemma {:induction false} FirstFailureNone(path: string, rules: seq<Rule>, v: Option<string>)
    ensures FirstFailure(path, rules, v) == None <==> forall i :: 0 <= i < |rules| ==> Passes(rules[i], v)
  {
    if rules != [] {
      FirstFailureNone(path, rules[1..], v);
      assert forall i :: 1 <= i < |rules| ==> rules[i] == rules[1..][i - 1];
    }
  }

  /** An error is the message of a failing rule all of whose predecessors pass. */
  lemma {:induction false} FirstFailureSome(path: string, rules: seq<Rule>, v: Option<string>) returns (i: nat)
    requires FirstFailure(path, rules, v).Some?
    ensures i < |rules| && !Passes(rules[i], v)
    ensures forall j :: 0 <= j < i ==> Passes(rules[j], v)
    ensures FirstFailure(path, rules, v) == Some(Message(rules[i], path, v))
  {
    if Passes(rules[0], v) {
      var k := FirstFailureSome(path, rules[1..], v);
      i := k + 1;
      assert forall j :: 1 <= j < i ==> rules[j] == rules[1..][j - 1];
    } else {
      i := 0;
    }
  }

  /** The outcome of a path with one, two or three rules, spelled out. */
  lemma {:induction false} FirstFailureOne(path: string, a: Rule, v: Option<string>)
    ensures FirstFailure(path, [a], v) == if !Passes(a, v) then Some(Message(a, path, v)) else None
  {
    Singleton(a);
  }

  lemma {:induction false} FirstFailureTwo(path: string, a: Rule, b: Rule, v: Option<string>)
    ensures FirstFailure(path, [a, b], v) ==
      if !Passes(a, v) then Some(Message(a, path, v))
      else if !Passes(b, v) then Some(Message(b, path, v))
      else None
  {
    assert [a, b][1..] == [b];
    FirstFailureOne(path, b, v);
  }

  lemma {:induction false} FirstFailureThree(path: string, a: Rule, b: Rule, c: Rule, v: Option<string>)
    ensures FirstFailure(path, [a, b, c], v) ==
      if !Passes(a, v) then Some(Message(a, path, v))
      else if !Passes(b, v) then Some(Message(b, path, v))
      else if !Passes(c, v) then Some(Message(c, path, v))
      else None
  {
    assert [a, b, c][1..] == [b, c];
    FirstFailureTwo(path, b, c, v);
  }

  /** A required path that is undefined or empty reports the required message, whatever follows. */
  lemma {:induction false} RequiredFirst(path: string, m: Option<string>, rules: seq<Rule>, v: Option<string>)
    requires v.None? || v.value == []
    ensures FirstFailure(path, [Required(m)] + rules, v) == Some(RequiredMessage(path, m))
  {
  }

  /** A path that is not required and undefined reports nothing. */
  lemma {:induction false} UndefinedSkipsValidators(path: string, rules: seq<Rule>)
    requires forall i :: 0 <= i < |rules| ==> !rules[i].Required?
    ensures FirstFailure(path, rules, None) == None
  {
    FirstFailureNone(path, rules, None);
  }

  /** `required: true` on a path of another type (Number, Boolean, ObjectId): only undefined fails. */
  function Present<T>(path: string, message: Option<string>, v: Option<T>): (r: Option<string>)
    ensures r.Some? <==> v.None?
    ensures r.Some? ==> r.value == RequiredMessage(path, message)
  {
    if v.None? then Some(RequiredMessage(path, message)) else None
  }

  /** A field error: the path and its message. */
  datatype FieldError = FieldError(path: string, message: string)

  /** The errors of a document, path by path in schema order, from each path's outcome. */
  function Collect(outcomes: seq<(string, Option<string>)>): (errs: seq<FieldError>)
    ensures |errs| <= |outcomes|
  {
    if outcomes == [] then []
    else
      var rest := Collect(outcomes[1..]);
      match outcomes[0].1
      case Some(m) => [FieldError(outcomes[0].0, m)] + rest
      case None => rest
  }

  /** No errors exactly when no path has one. */
  lemma {:induction false} CollectEmpty(outcomes: seq<(string, Option<string>)>)
    ensures Collect(outcomes) == [] <==> forall i :: 0 <= i < |outcomes| ==> outcomes[i].1.None?
  {
    if outcomes != [] {
      CollectEmpty(outcomes[1..]);
      assert forall i :: 1 <= i < |outcomes| ==> outcomes[i] == outcomes[1..][i - 1];
    }
  }

  /** Every path with an error is reported with that very message, and nothing else is reported. */
  lemma {:induction false} CollectMembers(outcomes: seq<(string, Option<string>)>, e: FieldError)
    ensures e in Collect(outcomes) <==> (e.path, Some(e.message)) in outcomes
  {
    if outcomes != [] {
      CollectMembers(outcomes[1..], e);
      assert (e.path, Some(e.message)) in outcomes <==>
        outcomes[0] == (e.path, Some(e.message)) || (e.path, Some(e.message)) in outcomes[1..];
    }
  }
}
