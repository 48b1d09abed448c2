/**
 * Exercise registration and grading: the identifier registry, labels and
 * their lookups, and assignments with their read-only segments, their
 * one-time hash key and `validate`, which grades every test case and folds
 * the outcomes into a `'no' | 'partial' | 'yes'` verdict.
 *
 * The module-level lists of `src/types.tsx` (`UniqueID.#unique`, `labels`,
 * `flatAssignments` and the reactive store) are the fields of one `Catalog`
 * object. Browser storage is a parameter; `Evaluator.evaluate` is a
 * parameter returning the worker's `{ result, ticks, error }` reply.
 */
module Types {
  import opened Wrappers
  import opened JsValues
  import Engine262

  /** The prefix of the browser-storage key that records a passed assignment. */
  const LocalStoragePrefix: string := "passed_assignment_:"

  const ReadOnlySegment: string := "Cannot set a read-only segment"
  const HashKeyNotSet: string := "Hash key not set"
  const HashKeyAlreadySet: string := "Hash key already set"
  const IdAlreadyExists: string := "ID already exists"

  /**
   * The names every plain JavaScript object inherits from `Object.prototype`.
   * Looking one of them up on the store's group map finds an inherited
   * function (or the prototype itself, for `__proto__`), which is truthy and
   * has no `push`.
   */
  predicate IsInheritedName(name: string)
  {
    name in {
      "constructor", "__proto__", "__defineGetter__", "__defineSetter__", "__lookupGetter__",
      "__lookupSetter__", "hasOwnProperty", "isPrototypeOf", "propertyIsEnumerable",
      "toLocaleString", "toString", "valueOf"
    }
  }

  /** The `TypeError` the group append throws when the lookup found an inherited member. */
  const GroupNotArray: string := "store[language][label.name].push is not a function"

  /** The one language exercises are written in. */
  datatype Language = JavaScriptTypeScript

  /** The grading verdict `'no' | 'partial' | 'yes'`. */
  datatype Pass = No | Partial | Yes

  /** The verdict as the string `validate` stores and returns. */
  function PassText(p: Pass): string
  {
    match p
    case No => "no"
    case Partial => "partial"
    case Yes => "yes"
  }

  // ---------------------------------------------------------------------------
  // Identifier shape
  // ---------------------------------------------------------------------------

  predicate IsHexDigit(c: char)
  {
    '0' <= c <= '9' || 'a' <= c <= 'f' || 'A' <= c <= 'F'
  }

  predicate AllHex(s: string)
  {
    forall i :: 0 <= i < |s| ==> IsHexDigit(s[i])
  }

  /** The positions of the four dashes in an 8-4-4-4-12 identifier. */
  predicate IsDashPosition(i: int)
  {
    i == 8 || i == 13 || i == 18 || i == 23
  }

  /** `/^[0-9a-fA-F]{8}-[0-9a-fA-F]{4}-[0-9a-fA-F]{4}-[0-9a-fA-F]{4}-[0-9a-fA-F]{12}$/`, position by position. */
  predicate IsUuid(id: string)
  {
    |id| == 36
    && forall i :: 0 <= i < 36 ==> if IsDashPosition(i) then id[i] == '-' else IsHexDigit(id[i])
  }

  /** An identifier of the right shape is five hex groups of 8, 4, 4, 4 and 12 digits joined by dashes. */
  lemma UuidGroups(id: string)
    requires IsUuid(id)
    ensures id == id[..8] + "-" + id[9..13] + "-" + id[14..18] + "-" + id[19..23] + "-" + id[24..]
    ensures AllHex(id[..8]) && AllHex(id[9..13]) && AllHex(id[14..18]) && AllHex(id[19..23]) && AllHex(id[24..])
  {
    UuidDashes(id);
    UuidHexGroups(id);
  }

  lemma UuidDashes(id: string)
    requires IsUuid(id)
    ensures id == id[..8] + "-" + id[9..13] + "-" + id[14..18] + "-" + id[19..23] + "-" + id[24..]
  {
    assert IsDashPosition(8) && IsDashPosition(13) && IsDashPosition(18) && IsDashPosition(23);
    assert id[8..9] == "-" && id[13..14] == "-" && id[18..19] == "-" && id[23..24] == "-";
    assert id == id[..8] + id[8..9] + id[9..13] + id[13..14] + id[14..18] + id[18..19] + id[19..23]
                 + id[23..24] + id[24..];
  }

  lemma UuidHexGroups(id: string)
    requires IsUuid(id)
    ensures AllHex(id[..8]) && AllHex(id[9..13]) && AllHex(id[14..18]) && AllHex(id[19..23]) && AllHex(id[24..])
  {
    assert forall i :: 0 <= i < 8 ==> id[..8][i] == id[i] && !IsDashPosition(i);
    assert forall i :: 0 <= i < 4 ==> id[9..13][i] == id[9 + i] && !IsDashPosition(9 + i);
    assert forall i :: 0 <= i < 4 ==> id[14..18][i] == id[14 + i] && !IsDashPosition(14 + i);
    assert forall i :: 0 <= i < 4 ==> id[19..23][i] == id[19 + i] && !IsDashPosition(19 + i);
    assert forall i :: 0 <= i < 12 ==> id[24..][i] == id[24 + i] && !IsDashPosition(24 + i);
  }

  /** Five hex groups of 8, 4, 4, 4 and 12 digits joined by dashes have the right shape. */
  lemma UuidOfGroups(a: string, b: string, c: string, d: string, e: string)
    requires |a| == 8 && |b| == 4 && |c| == 4 && |d| == 4 && |e| == 12
    requires AllHex(a) && AllHex(b) && AllHex(c) && AllHex(d) && AllHex(e)
    ensures IsUuid(a + "-" + b + "-" + c + "-" + d + "-" + e)
  {
    var id := a + "-" + b + "-" + c + "-" + d + "-" + e;
    forall i | 0 <= i < 36
      ensures if IsDashPosition(i) then id[i] == '-' else IsHexDigit(id[i])
    {
      if i < 8 { assert id[i] == a[i]; }
      else if 8 < i < 13 { assert id[i] == b[i - 9]; }
      else if 13 < i < 18 { assert id[i] == c[i - 14]; }
      else if 18 < i < 23 { assert id[i] == d[i - 19]; }
      else if 23 < i { assert id[i] == e[i - 24]; }
    }
  }

  // ---------------------------------------------------------------------------
  // Constructor checks
  // ---------------------------------------------------------------------------

  /** Why the assignment constructor refuses its data. */
  datatype ConstructError = InvalidUuid | TooFewSegments | CountMismatch | DuplicateId

  /** The message the constructor throws. */
  function Message(e: ConstructError): string
  {
    match e
    case InvalidUuid => "Key is not a valid UUID"
    case TooFewSegments =>
      "All assignments must at least have one segment to setup the assignment with optional inputs and then one for the user to write the code to solve the assignment."
    case CountMismatch => "All assignments must have the same number of inputs and answers"
    case DuplicateId => IdAlreadyExists
  }

  /**
   * The first check the constructor's data fails, in the order the
   * constructor makes them: the identifier's shape, at least two segments,
   * as many inputs as answers, an identifier not yet registered.
   */
  function Rejection(id: string, segmentCount: nat, inputCount: nat, answerCount: nat,
                     registered: seq<string>): (r: Option<ConstructError>)
    ensures r == Some(InvalidUuid) <==> !IsUuid(id)
    ensures r == Some(TooFewSegments) <==> IsUuid(id) && segmentCount < 2
    ensures r == Some(CountMismatch) <==> IsUuid(id) && segmentCount >= 2 && inputCount != answerCount
    ensures r == Some(DuplicateId) <==>
      IsUuid(id) && segmentCount >= 2 && inputCount == answerCount && id in registered
    ensures r == None <==>
      IsUuid(id) && segmentCount >= 2 && inputCount == answerCount && id !in registered
  {
    if !IsUuid(id) then Some(InvalidUuid)
    else if segmentCount < 2 then Some(TooFewSegments)
    else if inputCount != answerCount then Some(CountMismatch)
    else if id in registered then Some(DuplicateId)
    else None
  }

  // ---------------------------------------------------------------------------
  // Lookups
  // ---------------------------------------------------------------------------

  /** `Array.prototype.findIndex`: the first index whose element satisfies `p`, or -1. */
  function FindIndex<T>(s: seq<T>, p: T -> bool): (r: int)
    ensures -1 <= r < |s|
    ensures r == -1 <==> forall j :: 0 <= j < |s| ==> !p(s[j])
    ensures r >= 0 ==> p(s[r]) && forall j :: 0 <= j < r ==> !p(s[j])
    decreases |s|
  {
    if s == [] then -1
    else if p(s[0]) then 0
    else
      var k := FindIndex(s[1..], p);
      if k == -1 then -1 else k + 1
  }

  // ---------------------------------------------------------------------------
  // Segments
  // ---------------------------------------------------------------------------

  /** A segment `set`: refused at an even index, otherwise that one segment takes the value. */
  function UpdateSegment(segments: seq<string>, index: nat, value: string): seq<string>
    requires index < |segments|
  {
    if index % 2 == 0 then segments else segments[index := value]
  }

  /** A series of segment `set` calls, in order. */
  function ApplyUpdates(segments: seq<string>, updates: seq<(nat, string)>): (r: seq<string>)
    requires forall k :: 0 <= k < |updates| ==> updates[k].0 < |segments|
    ensures |r| == |segments|
    decreases |updates|
  {
    if updates == [] then segments
    else
      var before := ApplyUpdates(segments, updates[..|updates| - 1]);
      var u := updates[|updates| - 1];
      UpdateSegment(before, u.0, u.1)
  }

  /** No series of `set` calls changes an even-index (read-only) segment. */
  lemma {:induction false} ReadOnlySegmentsKept(segments: seq<string>, updates: seq<(nat, string)>, i: nat)
    requires forall k :: 0 <= k < |updates| ==> updates[k].0 < |segments|
    requires i < |segments| && i % 2 == 0
    ensures ApplyUpdates(segments, updates)[i] == segments[i]
    decreases |updates|
  {
    if updates != [] {
      ReadOnlySegmentsKept(segments, updates[..|updates| - 1], i);
    }
  }

  /** After a `set` at an odd index, `get` returns that value until the next `set` there. */
  lemma {:induction false} LatestSegmentWins(segments: seq<string>, updates: seq<(nat, string)>, k: nat)
    requires forall j :: 0 <= j < |updates| ==> updates[j].0 < |segments|
    requires k < |updates| && updates[k].0 % 2 == 1
    requires forall j :: k < j < |updates| ==> updates[j].0 != updates[k].0
    ensures ApplyUpdates(segments, updates)[updates[k].0] == updates[k].1
    decreases |updates|
  {
    if k < |updates| - 1 {
      var pre := updates[..|updates| - 1];
      LatestSegmentWins(segments, pre, k);
    }
  }

  // ---------------------------------------------------------------------------
  // Grading
  // ---------------------------------------------------------------------------

  /**
   * Whether one case passes: an undefined result fails; when answer and
   * result are both of type "object" (null and arrays included) their
   * serialisations are compared; otherwise strict equality, which for the
   * remaining (at least one primitive) pairs is equality of value and type.
   */
  function CasePasses(answer: Value, result: Value, stringify: Value -> string): bool
  {
    if result == Undefined then false
    else if IsObject(answer) && IsObject(result) then stringify(answer) == stringify(result)
    else answer == result
  }

  /**
   * An undefined result fails; an equal defined result passes; two objects
   * pass iff their serialisations agree; any other pass is an equal value.
   */
  lemma CasePassesMeaning(answer: Value, result: Value, stringify: Value -> string)
    ensures result == Undefined ==> !CasePasses(answer, result, stringify)
    ensures result != Undefined && answer == result ==> CasePasses(answer, result, stringify)
    ensures CasePasses(answer, result, stringify) && !(IsObject(answer) && IsObject(result)) ==> answer == result
    ensures IsObject(answer) && IsObject(result) ==>
      (CasePasses(answer, result, stringify) <==> stringify(answer) == stringify(result))
  {
  }

  /** No coercion: `1` against `"1"` fails, and an object against a number fails. */
  lemma NoCoercion(stringify: Value -> string)
    ensures !CasePasses(Number(1), Str("1"), stringify)
    ensures !CasePasses(Object([("a", Number(1))]), Number(1), stringify)
    ensures CasePasses(Object([("a", Number(1))]), Object([("a", Number(1))]), stringify)
  {
  }

  /** `every(p => p) ? 'yes' : some(p => p) ? 'partial' : 'no'`. */
  function Verdict(passes: seq<bool>): Pass
  {
    if forall k :: 0 <= k < |passes| ==> passes[k] then Yes
    else if exists k :: 0 <= k < |passes| && passes[k] then Partial
    else No
  }

  /** The three verdicts: all passed (also for no cases), some but not all, none of at least one. */
  lemma VerdictMeaning(passes: seq<bool>)
    ensures Verdict(passes) == Yes <==> false !in passes
    ensures Verdict(passes) == Partial <==> true in passes && false in passes
    ensures Verdict(passes) == No <==> passes != [] && true !in passes
  {
    if Verdict(passes) == Yes {
      assert false !in passes;
      if passes != [] {
        assert passes[0];
      }
    } else if Verdict(passes) == Partial {
      var k :| 0 <= k < |passes| && !passes[k];
      var j :| 0 <= j < |passes| && passes[j];
      assert false in passes && true in passes;
    } else {
      var k :| 0 <= k < |passes| && !passes[k];
      assert passes != [];
    }
  }

  /** Pass lists in completion order: `order` visits every case index once. */
  predicate IsCompletionOrder(order: seq<nat>, n: nat)
  {
    |order| == n
    && (forall k :: 0 <= k < |order| ==> order[k] < n)
    && (forall i :: 0 <= i < n ==> i in order)
  }

  /** The verdict does not depend on the order in which the cases completed. */
  lemma VerdictIgnoresOrder(passes: seq<bool>, order: seq<nat>)
    requires IsCompletionOrder(order, |passes|)
    ensures Verdict(Reorder(passes, order)) == Verdict(passes)
  {
    var reordered := Reorder(passes, order);
    var allIn := forall i :: 0 <= i < |passes| ==> passes[i];
    var allOut := forall k :: 0 <= k < |reordered| ==> reordered[k];
    if allOut {
      forall i | 0 <= i < |passes| ensures passes[i] {
        assert i in order;
        var k :| 0 <= k < |order| && order[k] == i;
        assert reordered[k] == passes[i];
      }
    }
    if !allOut {
      var k :| 0 <= k < |reordered| && !reordered[k];
      assert !passes[order[k]];
    }
    var someIn := exists i :: 0 <= i < |passes| && passes[i];
    var someOut := exists k :: 0 <= k < |reordered| && reordered[k];
    if someIn {
      var i :| 0 <= i < |passes| && passes[i];
      assert i in order;
      var k :| 0 <= k < |order| && order[k] == i;
      assert reordered[k];
    }
    if someOut {
      var k :| 0 <= k < |reordered| && reordered[k];
      assert passes[order[k]];
    }
  }

  /** `if (!error) error = err`, over the errors in completion order. */
  function FoldError(errors: seq<Value>): Value
    decreases |errors|
  {
    if errors == [] then Undefined
    else
      var e := FoldError(errors[..|errors| - 1]);
      if Truthy(e) then e else errors[|errors| - 1]
  }

  /** One more completed case: the fold keeps a truthy error, otherwise takes the new one. */
  lemma FoldErrorStep(errors: seq<Value>, k: nat)
    requires k < |errors|
    ensures FoldError(errors[..k + 1])
      == if Truthy(FoldError(errors[..k])) then FoldError(errors[..k]) else errors[k]
  {
    assert errors[..k + 1][..k] == errors[..k];
  }

  /** Case 0 has completed after step k iff it had before, or it is the case of step k. */
  lemma SeenAfterStep(order: seq<nat>, k: nat)
    requires k < |order|
    ensures (0 in order[..k + 1]) <==> (0 in order[..k] || order[k] == 0)
  {
    assert order[..k + 1] == order[..k] + [order[k]];
  }

  /** The reported error is the first truthy one, never overwritten afterwards. */
  lemma {:induction false} FoldErrorFirstTruthy(errors: seq<Value>, k: nat)
    requires k < |errors| && Truthy(errors[k])
    requires forall j :: 0 <= j < k ==> !Truthy(errors[j])
    ensures FoldError(errors) == errors[k]
    decreases |errors|
  {
    if |errors| - 1 > k {
      FoldErrorFirstTruthy(errors[..|errors| - 1], k);
    } else {
      FoldErrorNoneTruthy(errors[..k]);
    }
  }

  /** With no truthy error the last one seen is reported (undefined when there are none). */
  lemma {:induction false} FoldErrorNoneTruthy(errors: seq<Value>)
    requires forall j :: 0 <= j < |errors| ==> !Truthy(errors[j])
    ensures FoldError(errors) == if errors == [] then Undefined else errors[|errors| - 1]
    decreases |errors|
  {
    if errors != [] {
      FoldErrorNoneTruthy(errors[..|errors| - 1]);
    }
  }

  /** What `validate` returns. `ticks` is absent while case 0 has not reported. */
  datatype Validation = Validation(result: Value, passed: Pass, ticks: Option<int>, error: Value)

  /** Evaluator.evaluate(language, program segments, inputs): the worker's reply for one case. */
  type Evaluator = (Language, seq<string>, seq<string>) -> Engine262.Report

  // ---------------------------------------------------------------------------
  // Objects
  // ---------------------------------------------------------------------------

  /** A registered identifier. */
  class UniqueID {
    const id: string

    constructor (id: string)
      ensures this.id == id
    {
      this.id := id;
    }
  }

  /** A label groups assignments; its prerequisites are other labels. */
  class Label {
    const name: string
    const prerequisites: seq<Label>

    constructor (name: string, prerequisites: seq<Label>)
      ensures this.name == name && this.prerequisites == prerequisites
    {
      this.name := name;
      this.prerequisites := prerequisites;
    }
  }

  /** An exercise: fixed metadata, editable segments, a one-time hash key and the stored verdict. */
  class Assignment {
    const id: UniqueID
    const title: string
    const tag: Label  // the assignment's label
    const language: Language
    const inputs: seq<seq<string>>
    const answers: seq<Value>
    var segments: seq<string>
    var hashKey: string
    var passed: Pass

    /** What the constructor's checks guarantee, kept by every method. */
    ghost predicate Valid()
      reads this
    {
      |segments| >= 2 && |inputs| == |answers|
    }

    constructor (language: Language, tag: Label, id: UniqueID, title: string,
                 segments: seq<string>, inputs: seq<seq<string>>, answers: seq<Value>)
      requires |segments| >= 2 && |inputs| == |answers|
      ensures Valid()
      ensures this.language == language && this.tag == tag && this.id == id && this.title == title
      ensures this.segments == segments && this.inputs == inputs && this.answers == answers
      ensures hashKey == "" && passed == No
    {
      this.language := language;
      this.tag := tag;
      this.id := id;
      this.title := title;
      this.segments := segments;
      this.inputs := inputs;
      this.answers := answers;
      this.hashKey := "";
      this.passed := No;
    }

    /** The `hashKey` getter: throws while no key is set. */
    method GetHashKey() returns (r: Result<string, string>)
      ensures hashKey == "" ==> r == Err(HashKeyNotSet)
      ensures hashKey != "" ==> r == Ok(hashKey)
    {
      if hashKey == "" {
        return Err(HashKeyNotSet);
      }
      return Ok(hashKey);
    }

    /**
     * The `hashKey` setter: throws once a non-empty key is set; otherwise
     * stores the key and sets the verdict from browser storage (`isStored`
     * says whether an entry exists under a storage key).
     */
    method SetHashKey(key: string, isStored: string -> bool) returns (r: Result<(), string>)
      requires Valid()
      modifies this`hashKey, this`passed
      ensures Valid()
      ensures old(hashKey) != "" ==>
        r == Err(HashKeyAlreadySet) && hashKey == old(hashKey) && passed == old(passed)
      ensures old(hashKey) == "" ==>
        r == Ok(()) && hashKey == key
        && passed == (if isStored(LocalStoragePrefix + key) then Yes else No)
    {
      if hashKey != "" {
        return Err(HashKeyAlreadySet);
      }
      hashKey := key;
      passed := if isStored(LocalStoragePrefix + hashKey) then Yes else No;
      r := Ok(());
    }

    /** A segment's `set`: refused at an even index; at an odd one, only that segment changes. */
    method SetSegment(index: nat, value: string) returns (r: Result<(), string>)
      requires Valid() && index < |segments|
      modifies this`segments
      ensures Valid()
      ensures r == if index % 2 == 0 then Err(ReadOnlySegment) else Ok(())
      ensures segments == UpdateSegment(old(segments), index, value)
    {
      if index % 2 == 0 {
        return Err(ReadOnlySegment);
      }
      segments := segments[index := value];
      r := Ok(());
    }

    /** The replies of the evaluator for every case, in case order. */
    function Replies(evaluate: Evaluator): (replies: seq<Engine262.Report>)
      reads this`segments
      ensures |replies| == |inputs|
    {
      var program := segments;
      seq(|inputs|, i requires 0 <= i < |inputs| => evaluate(language, program, inputs[i]))
    }

    /** Whether each case passed, in case order. */
    function CaseResults(evaluate: Evaluator, stringify: Value -> string): (passes: seq<bool>)
      requires |inputs| == |answers|
      reads this`segments
      ensures |passes| == |inputs|
    {
      var replies := Replies(evaluate);
      seq(|inputs|, i requires 0 <= i < |inputs| => CasePasses(answers[i], replies[i].result, stringify))
    }

    /**
     * The body of `validate`'s `forEach`, run for the cases in the order
     * they complete: one pass flag per case in that order, the result and
     * ticks of case 0, and the first truthy error.
     */
    method RunCases(evaluate: Evaluator, stringify: Value -> string, order: seq<nat>)
      returns (passes: seq<bool>, result: Value, ticks: Option<int>, error: Value)
      requires Valid()
      requires IsCompletionOrder(order, |inputs|)
      ensures passes == Reorder(CaseResults(evaluate, stringify), order)
      ensures result == if |inputs| > 0 then Replies(evaluate)[0].result else Undefined
      ensures ticks == if |inputs| > 0 then Some(Replies(evaluate)[0].ticks) else None
      ensures error == FoldError(Reorder(ErrorsOf(Replies(evaluate)), order))
    {
      ghost var replies := Replies(evaluate);
      ghost var results := Reorder(CaseResults(evaluate, stringify), order);
      ghost var errors := Reorder(ErrorsOf(replies), order);
      passes := [];
      result := Undefined;
      ticks := None;
      error := Undefined;
      var k := 0;
      while k < |order|
        invariant 0 <= k <= |order|
        invariant passes == results[..k]
        invariant result == if 0 in order[..k] then replies[0].result else Undefined
        invariant ticks == if 0 in order[..k] then Some(replies[0].ticks) else None
        invariant error == FoldError(errors[..k])
      {
        var index := order[k];
        SeenAfterStep(order, k);
        FoldErrorStep(errors, k);
        var reply := evaluate(language, segments, inputs[index]);
        assert reply == replies[index];
        var pass := CasePasses(answers[index], reply.result, stringify);
        assert results[..k + 1] == results[..k] + [pass];
        passes := passes + [pass];
        if index == 0 {
          result := reply.result;
          ticks := Some(reply.ticks);
        }
        if !Truthy(error) {
          error := reply.error;
        }
        k := k + 1;
      }
      assert order[..k] == order;
      assert results[..k] == results;
      assert errors[..k] == errors;
      if |inputs| > 0 {
        assert 0 in order;
      }
    }

    /**
     * `validate()`: grade every case and store the verdict, which is the
     * verdict of the pass flags in case order whatever the completion order.
     */
    method Validate(evaluate: Evaluator, stringify: Value -> string, order: seq<nat>)
      returns (report: Validation)
      requires Valid()
      requires IsCompletionOrder(order, |inputs|)
      modifies this`passed
      ensures Valid()
      ensures passed == Verdict(CaseResults(evaluate, stringify))
      ensures report.passed == passed
      ensures report.result == if |inputs| > 0 then Replies(evaluate)[0].result else Undefined
      ensures report.ticks == if |inputs| > 0 then Some(Replies(evaluate)[0].ticks) else None
      ensures report.error == FoldError(Reorder(ErrorsOf(Replies(evaluate)), order))
    {
      var passes, result, ticks, error := RunCases(evaluate, stringify, order);
      VerdictIgnoresOrder(CaseResults(evaluate, stringify), order);
      passed := Verdict(passes);
      report := Validation(result, passed, ticks, error);
    }
  }

  /** The elements of `xs` in the order `order` lists their indices. */
  function Reorder<T>(xs: seq<T>, order: seq<nat>): (r: seq<T>)
    requires forall k :: 0 <= k < |order| ==> order[k] < |xs|
    ensures |r| == |order|
  {
    seq(|order|, k requires 0 <= k < |order| => xs[order[k]])
  }

  /** The `error` field of each reply. */
  function ErrorsOf(replies: seq<Engine262.Report>): (r: seq<Value>)
    ensures |r| == |replies|
  {
    seq(|replies|, i requires 0 <= i < |replies| => replies[i].error)
  }

  /** The module-level registries: identifiers, labels, assignments and the label-grouped store. */
  class Catalog {
    var unique: seq<string>
    var labels: seq<Label>
    var flat: seq<Assignment>
    var store: map<Language, map<string, seq<Assignment>>>

    /**
     * The registry lists exactly the identifiers of the registered
     * assignments, in order and without repeats; the store has a group map
     * for every language and only registered assignments under their label.
     */
    ghost predicate Valid()
      reads this
    {
      Registered(unique, flat) && Grouped(store, flat)
    }

    /** The identifiers are those of the assignments, in order and without repeats. */
    static ghost predicate Registered(unique: seq<string>, flat: seq<Assignment>)
    {
      |unique| == |flat|
      && (forall i :: 0 <= i < |flat| ==> flat[i].id.id == unique[i])
      && (forall i, j :: 0 <= i < j < |unique| ==> unique[i] != unique[j])
    }

    /** The store has a group map for the language, holding only assignments under their own label and language. */
    static ghost predicate Grouped(store: map<Language, map<string, seq<Assignment>>>, flat: seq<Assignment>)
    {
      JavaScriptTypeScript in store
      && (forall lang, name, a :: lang in store && name in store[lang] && a in store[lang][name] ==>
            a in flat && a.tag.name == name && a.language == lang)
    }

    static lemma RegisteredAppend(unique: seq<string>, flat: seq<Assignment>, a: Assignment)
      requires Registered(unique, flat) && a.id.id !in unique
      ensures Registered(unique + [a.id.id], flat + [a])
    {
    }

    static lemma GroupedAppend(store: map<Language, map<string, seq<Assignment>>>, flat: seq<Assignment>,
                               a: Assignment)
      requires Grouped(store, flat) && a.language in store
      ensures var name := a.tag.name;
        Grouped(store[a.language := store[a.language][name := Group(store, a.language, name) + [a]]], flat + [a])
    {
      var name := a.tag.name;
      var s' := store[a.language := store[a.language][name := Group(store, a.language, name) + [a]]];
      forall lang, n, b | lang in s' && n in s'[lang] && b in s'[lang][n]
        ensures b in flat + [a] && b.tag.name == n && b.language == lang
      {
        if lang == a.language && n == name && b !in Group(store, a.language, name) {
          assert b == a;
        }
      }
    }

    constructor ()
      ensures Valid()
      ensures unique == [] && labels == [] && flat == [] && store == map[JavaScriptTypeScript := map[]]
    {
      unique := [];
      labels := [];
      flat := [];
      store := map[JavaScriptTypeScript := map[]];
    }

    /** `new Label(name, prerequisites)`: the label is appended to the label list. */
    method NewLabel(name: string, prerequisites: seq<Label>) returns (tag: Label)
      modifies this`labels
      ensures fresh(tag) && tag.name == name && tag.prerequisites == prerequisites
      ensures labels == old(labels) + [tag]
    {
      tag := new Label(name, prerequisites);
      labels := labels + [tag];
    }

    /**
     * `new UniqueID(id)`: refuses a registered identifier, otherwise registers
     * it. `UniqueID` is not exported from `src/types.tsx`; its one caller is
     * the `Assignment` constructor, so this is the first step of
     * `NewAssignment`. The registry then runs one entry ahead of the flat list
     * until `NewAssignment` appends the assignment and restores `Valid`.
     */
    method NewUniqueID(id: string) returns (r: Result<UniqueID, string>)
      modifies this`unique
      ensures id in old(unique) ==> r == Err(IdAlreadyExists) && unique == old(unique)
      ensures id !in old(unique) ==> r.Ok? && fresh(r.value) && r.value.id == id && unique == old(unique) + [id]
    {
      if id in unique {
        return Err(IdAlreadyExists);
      }
      unique := unique + [id];
      var uid := new UniqueID(id);
      r := Ok(uid);
    }

    /** The group of a label name in a store, empty when absent. */
    static function Group(store: map<Language, map<string, seq<Assignment>>>, language: Language,
                          name: string): seq<Assignment>
    {
      if language in store && name in store[language] then store[language][name] else []
    }

    /**
     * Whether the group lookup of a label name finds an inherited member of
     * the group map rather than a group: the name has no group of its own
     * and is one of the names a plain object inherits.
     */
    static predicate Shadowed(store: map<Language, map<string, seq<Assignment>>>, language: Language,
                              name: string)
    {
      (language !in store || name !in store[language]) && IsInheritedName(name)
    }

    /**
     * `new Assignment(language, label, data)`: refuse the data at the first
     * failed check, changing nothing; otherwise register the identifier and
     * append the assignment to the flat list. Then, in the store update, a
     * label name the group map inherits is truthy, so no group is created and
     * its `push` throws a `TypeError`: the identifier and the flat entry stay
     * and the store is unchanged. Any other name gets the assignment appended
     * to its group, which is created when absent. No other group changes.
     */
    method NewAssignment(language: Language, tag: Label, id: string, title: string,
                         segments: seq<string>, inputs: seq<seq<string>>, answers: seq<Value>)
      returns (r: Result<Assignment, string>)
      requires Valid()
      modifies this
      ensures Valid()
      ensures labels == old(labels)
      ensures r.Ok? <==>
        Rejection(id, |segments|, |inputs|, |answers|, old(unique)) == None
        && !Shadowed(old(store), language, tag.name)
      ensures Rejection(id, |segments|, |inputs|, |answers|, old(unique)) != None ==>
        r.Err?
        && r.error == Message(Rejection(id, |segments|, |inputs|, |answers|, old(unique)).value)
        && unique == old(unique) && flat == old(flat) && store == old(store)
      ensures Rejection(id, |segments|, |inputs|, |answers|, old(unique)) == None
              && Shadowed(old(store), language, tag.name) ==>
        r == Err(GroupNotArray)
        && unique == old(unique) + [id] && |flat| == |old(flat)| + 1 && flat[..|old(flat)|] == old(flat)
        && flat[|old(flat)|].id.id == id && flat[|old(flat)|].tag == tag
        && store == old(store)
      ensures r.Ok? ==>
        fresh(r.value) && r.value.id.id == id && r.value.title == title && r.value.tag == tag
        && r.value.language == language && r.value.segments == segments
        && r.value.inputs == inputs && r.value.answers == answers
        && r.value.hashKey == "" && r.value.passed == No
        && unique == old(unique) + [id] && flat == old(flat) + [r.value]
        && store == old(store)[language := old(store)[language][tag.name := Group(old(store), language, tag.name) + [r.value]]]
    {
      if !IsUuid(id) {
        return Err(Message(InvalidUuid));
      }
      if |segments| < 2 {
        return Err(Message(TooFewSegments));
      }
      if |inputs| != |answers| {
        return Err(Message(CountMismatch));
      }
      var uid := NewUniqueID(id);
      if uid.Err? {
        return Err(uid.error);
      }
      var a := new Assignment(language, tag, uid.value, title, segments, inputs, answers);
      RegisteredAppend(unique[..|unique| - 1], flat, a);
      GroupedAppend(store, flat, a);
      flat := flat + [a];
      if Shadowed(store, language, tag.name) {
        return Err(GroupNotArray);
      }
      var group := Group(store, language, tag.name);
      store := store[language := store[language][tag.name := group + [a]]];
      r := Ok(a);
    }

    /** `Assignment.getAssignment(key)`: the first registered assignment with that identifier. */
    function GetAssignment(key: string): (r: Result<Assignment, string>)
      reads this
      ensures r.Ok? <==> exists i :: 0 <= i < |flat| && flat[i].id.id == key
      ensures r.Ok? ==> r.value in flat && r.value.id.id == key
      ensures r.Err? ==> r.error == "Assignment not found: " + key
    {
      var k := FindIndex(flat, (a: Assignment) => a.id.id == key);
      if k == -1 then Err("Assignment not found: " + key) else Ok(flat[k])
    }

    /** With the registry valid, the identifier finds the one assignment registered under it. */
    lemma GetAssignmentUnique(key: string, i: nat)
      requires Valid()
      requires i < |flat| && flat[i].id.id == key
      ensures GetAssignment(key) == Ok(flat[i])
    {
      var k := FindIndex(flat, (a: Assignment) => a.id.id == key);
      assert k >= 0 && flat[k].id.id == key;
      assert unique[k] == unique[i];
    }

    /** `Assignment.flat()`: the assignments in registration order, one per registered identifier. */
    function Flat(): (r: seq<Assignment>)
      requires Valid()
      reads this
      ensures |r| == |unique| && forall i :: 0 <= i < |r| ==> r[i].id.id == unique[i]
    {
      flat
    }

    /** `Label.getSortNumber(name)`: the index of the first label with that name, or -1. */
    function GetSortNumber(name: string): (r: int)
      reads this
      ensures -1 <= r < |labels|
      ensures r == -1 <==> forall j :: 0 <= j < |labels| ==> labels[j].name != name
      ensures r >= 0 ==> labels[r].name == name && forall j :: 0 <= j < r ==> labels[j].name != name
    {
      FindIndex(labels, (l: Label) => l.name == name)
    }

    /** `Label.getByName(name)`: the first label with that name, if any. */
    function GetByName(name: string): (r: Option<Label>)
      reads this
      ensures r.None? <==> GetSortNumber(name) == -1
      ensures r.Some? ==> r.value == labels[GetSortNumber(name)] && r.value.name == name
    {
      var k := FindIndex(labels, (l: Label) => l.name == name);
      if k == -1 then None else Some(labels[k])
    }

    /**
     * `label.isUnlocked` as written: no registered assignment in a
     * prerequisite label has a falsy verdict string.
     */
    function IsUnlocked(tag: Label): bool
      reads this, set a | a in flat
    {
      NoBlockingAssignment(flat, tag.prerequisites)
    }

    /** As written, every label is unlocked: no verdict string is falsy. */
    lemma IsUnlockedAlwaysTrue(tag: Label)
      ensures IsUnlocked(tag)
    {
      NoneBlocks(flat, tag.prerequisites);
    }

    /** The evidently intended `isUnlocked`: every assignment in a prerequisite label has passed. */
    function IsUnlockedIntended(tag: Label): (r: bool)
      reads this, set a | a in flat
      ensures r <==> forall i :: 0 <= i < |flat| && flat[i].tag in tag.prerequisites ==> flat[i].passed == Yes
    {
      AllPrerequisitesPassed(flat, tag.prerequisites)
    }
  }

  /** `!assignments.find(a => prerequisites.includes(a.label) && !a.passed)`. */
  function NoBlockingAssignment(assignments: seq<Assignment>, prerequisites: seq<Label>): bool
    reads set a | a in assignments
    decreases |assignments|
  {
    assignments == []
    || (!(assignments[0].tag in prerequisites && !Truthy(Str(PassText(assignments[0].passed))))
        && NoBlockingAssignment(assignments[1..], prerequisites))
  }

  lemma {:induction false} NoneBlocks(assignments: seq<Assignment>, prerequisites: seq<Label>)
    ensures NoBlockingAssignment(assignments, prerequisites)
    decreases |assignments|
  {
    if assignments != [] {
      assert Truthy(Str(PassText(assignments[0].passed)));
      NoneBlocks(assignments[1..], prerequisites);
    }
  }

  /** `!assignments.find(a => prerequisites.includes(a.label) && a.passed !== 'yes')`. */
  function AllPrerequisitesPassed(assignments: seq<Assignment>, prerequisites: seq<Label>): (r: bool)
    reads set a | a in assignments
    ensures r <==> forall i :: 0 <= i < |assignments| && assignments[i].tag in prerequisites ==>
      assignments[i].passed == Yes
    decreases |assignments|
  {
    if assignments == [] then true
    else
      var rest := AllPrerequisitesPassed(assignments[1..], prerequisites);
      assert forall i :: 1 <= i < |assignments| ==> assignments[i] == assignments[1..][i - 1];
      !(assignments[0].tag in prerequisites && assignments[0].passed != Yes) && rest
  }
}
