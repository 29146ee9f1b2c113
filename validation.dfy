/**
 * The `exceptionFactory` given to the global validation pipe in src/main.ts.
 * The validation layer hands it the list of field failures of one request;
 * it turns that list into a single Bad-Request exception.
 */
module Validation {
  import opened Wrappers

  /** A constraints object: failure kind to message, in `Object.keys` order. */
  type Constraints = seq<(string, string)>

  /**
   * One field failure. Either part may be `undefined`; `children` holds the
   * failures of a nested object's fields.
   */
  datatype VError = VError(constraints: Option<Constraints>, children: Option<seq<VError>>)

  /** The exception handed back to the pipe; `None` stands for an `undefined` message. */
  datatype BadRequest = BadRequest(message: Option<string>)

  /** What one call of the factory does. */
  datatype Outcome =
    | NoException           // the arrow function falls off its end: `undefined`
    | Raise(e: BadRequest)  // `return new BadRequestException(message)`
    | Throws                // `Object.keys(undefined)` raises a TypeError

  /** A real JavaScript object never has the same own key twice. */
  ghost predicate DistinctKeys(c: Constraints) {
    forall i, j :: 0 <= i < j < |c| ==> c[i].0 != c[j].0
  }

  /** `Object.keys(c)`. */
  function Keys(c: Constraints): (keys: seq<string>)
    ensures |keys| == |c|
    ensures forall i :: 0 <= i < |c| ==> keys[i] == c[i].0
  {
    if c == [] then [] else [c[0].0] + Keys(c[1..])
  }

  /** The property read `c[k]`: the message stored under key `k`, if any. */
  function Get(c: Constraints, k: string): (r: Option<string>)
    ensures r.Some? <==> exists i :: 0 <= i < |c| && c[i].0 == k
    ensures r.Some? ==> exists i :: 0 <= i < |c| && c[i] == (k, r.value)
  {
    if c == [] then None
    else if c[0].0 == k then Some(c[0].1)
    else
      var r := Get(c[1..], k);
      assert forall i :: 0 < i < |c| ==> c[i] == c[1..][i - 1];
      assert r.Some? ==> exists i :: 0 <= i < |c[1..]| && c[1..][i].0 == k;
      r
  }

  /** Reference meaning of "the message of the last constraint". */
  function LastMessage(c: Constraints): Option<string>
  {
    if c == [] then None else Some(c[|c| - 1].1)
  }

  /**
   * Lines 81-85 and 87-91: take the constraints object, read its last key
   * and wrap the message stored under it.
   */
  function Report(error: Option<Constraints>): (r: Outcome)
    ensures r != NoException
    ensures r.Throws? <==> error.None?
    ensures error == Some([]) ==> r == Raise(BadRequest(None))
  {
    match error
    case None => Throws
    case Some(c) =>
      var keys := Keys(c);
      // with no keys, `keys[keys.length - 1]` and the read under it are `undefined`
      var message := if |keys| == 0 then None else Get(c, keys[|keys| - 1]);
      Raise(BadRequest(message))
  }

  /** The factory itself, lines 77-93. */
  function ExceptionFactory(errors: Option<seq<VError>>): (r: Outcome)
    ensures r == NoException <==> (errors.None? || errors.value == [])
    ensures errors.Some? && errors.value != [] ==> r == Report(Selected(errors.value).constraints)
  {
    if errors.Some? && |errors.value| > 0 then
      var children := errors.value[0].children;
      if children.Some? && |children.value| != 0 then
        Report(children.value[0].constraints)
      else
        Report(errors.value[0].constraints)
    else
      NoException
  }

  /**
   * Reference meaning of the selection: the node whose constraints are
   * reported is the first failure's first child when it has one, and the
   * first failure itself otherwise.
   */
  function Selected(errors: seq<VError>): (n: VError)
    requires errors != []
  {
    match errors[0].children
    case Some(ch) => if ch == [] then errors[0] else ch[0]
    case None => errors[0]
  }

  // ---------------------------------------------------------------------
  // Properties of the constraint lookup

  /**
   * With distinct keys, reading under the last key yields the last pair's
   * message. It follows from the second postcondition of `Get`, whose
   * recursive proof carries the work.
   */
  lemma GetLastKey(c: Constraints)
    requires DistinctKeys(c) && c != []
    ensures Get(c, c[|c| - 1].0) == Some(c[|c| - 1].1)
  {
  }

  /** A constraints object reports the message of its last key, or `undefined` when empty. */
  lemma ReportLastMessage(c: Constraints)
    requires DistinctKeys(c)
    ensures Report(Some(c)) == Raise(BadRequest(LastMessage(c)))
  {
    if c != [] {
      GetLastKey(c);
    }
  }

  /** A single constraint yields exactly its own message. */
  lemma ReportSingle(kind: string, message: string)
    ensures Report(Some([(kind, message)])) == Raise(BadRequest(Some(message)))
  {
    ReportLastMessage([(kind, message)]);
  }

  // ---------------------------------------------------------------------
  // Properties of the factory

  /**
   * The factory reports the constraints of the selected node: a TypeError when
   * that node has none, otherwise a Bad Request with the message of its last key.
   */
  lemma FactoryReportsSelected(errors: seq<VError>)
    requires errors != []
    requires Selected(errors).constraints.Some? ==> DistinctKeys(Selected(errors).constraints.value)
    ensures ExceptionFactory(Some(errors)).Throws? <==> Selected(errors).constraints.None?
    ensures Selected(errors).constraints.Some? ==>
      ExceptionFactory(Some(errors)) == Raise(BadRequest(LastMessage(Selected(errors).constraints.value)))
  {
    if Selected(errors).constraints.Some? {
      ReportLastMessage(Selected(errors).constraints.value);
    }
  }

  /** Lines 79 and 87: failures after the first never affect the outcome. */
  lemma OnlyFirstError(first: VError, rest1: seq<VError>, rest2: seq<VError>)
    ensures ExceptionFactory(Some([first] + rest1)) == ExceptionFactory(Some([first] + rest2))
    ensures ExceptionFactory(Some([first] + rest1)) == ExceptionFactory(Some([first]))
  {
  }

  /**
   * Lines 79-85: with a non-empty `children`, the message comes from the first
   * child's constraints; the parent's own constraints, the first child's own
   * children and the later children are all ignored.
   */
  lemma NestedUsesFirstChild(own: Option<Constraints>, childConstraints: Constraints,
                             grandchildren: Option<seq<VError>>, siblings: seq<VError>,
                             rest: seq<VError>)
    requires DistinctKeys(childConstraints)
    ensures ExceptionFactory(Some([VError(own, Some([VError(Some(childConstraints), grandchildren)] + siblings))] + rest))
         == Raise(BadRequest(LastMessage(childConstraints)))
  {
    ReportLastMessage(childConstraints);
  }

  /** Lines 80 and 87-91: with `children` absent or empty, the message comes from the first failure's own constraints. */
  lemma FlatUsesOwnConstraints(c: Constraints, children: Option<seq<VError>>, rest: seq<VError>)
    requires children.None? || children == Some([])
    requires DistinctKeys(c)
    ensures ExceptionFactory(Some([VError(Some(c), children)] + rest)) == Raise(BadRequest(LastMessage(c)))
  {
    ReportLastMessage(c);
  }

  /**
   * Lines 81-82 and 87-88: the selected node without constraints makes
   * `Object.keys` throw. This is what happens one level deeper than the
   * factory looks, where a nested object's failure has children but no
   * constraints of its own.
   */
  lemma MissingConstraintsThrow(own: Option<Constraints>, deeper: seq<VError>, siblings: seq<VError>)
    ensures ExceptionFactory(Some([VError(own, Some([VError(None, Some(deeper))] + siblings))])) == Throws
    ensures ExceptionFactory(Some([VError(None, None)])) == Throws
  {
  }

  /** Lines 83-84 and 89-90: an empty constraints object gives an `undefined` message. */
  lemma EmptyConstraintsUndefinedMessage(children: Option<seq<VError>>)
    requires children.None? || children == Some([])
    ensures ExceptionFactory(Some([VError(Some([]), children)])) == Raise(BadRequest(None))
  {
  }

  /** Two failure kinds on one field: the second key's message is reported. */
  lemma TwoConstraintsLastWins(k1: string, m1: string, k2: string, m2: string)
    requires k1 != k2
    ensures ExceptionFactory(Some([VError(Some([(k1, m1), (k2, m2)]), None)])) == Raise(BadRequest(Some(m2)))
  {
    ReportLastMessage([(k1, m1), (k2, m2)]);
  }
}
