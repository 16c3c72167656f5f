/**
 * The loop every decoder runs, `for registry_value in registry_key.GetValues()`,
 * read as a left fold over the values that the first exception stops, and the
 * facts about it that all four decoders share.
 */
module Scanning {
  import opened Python
  import opened Registry

  /** What a decoder carries through its loop: the event-data attributes and one local variable. */
  datatype ScanState<R, A> = ScanState(fields: R, acc: A)

  /** The state after the loop has run over `values`, or the exception that stopped it. */
  function Scan<S>(step: (S, RegistryValue) -> Result<S>, init: S, values: seq<RegistryValue>): Result<S> {
    if values == [] then Success(init)
    else
      var s :- Scan(step, init, values[..|values| - 1]);
      step(s, values[|values| - 1])
  }

  /** One more turn of the loop. */
  lemma ScanOneMore<S>(step: (S, RegistryValue) -> Result<S>, init: S, values: seq<RegistryValue>, i: nat)
    requires i < |values|
    ensures Scan(step, init, values[..i + 1]) ==
              match Scan(step, init, values[..i])
              case Failure(e) => Failure(e)
              case Success(s) => step(s, values[i])
  {
    assert values[..i + 1][..i] == values[..i];
  }

  /** A loop whose every completed turn takes `track(front)` to `track(front + [v])` ends, when
      no value raises, at `track(values)`. */
  lemma {:induction false} ScanFollows<S>(step: (S, RegistryValue) -> Result<S>, track: seq<RegistryValue> -> S,
                                         values: seq<RegistryValue>)
    requires forall front, v :: step(track(front), v).Success? ==> step(track(front), v).value == track(front + [v])
    requires Scan(step, track([]), values).Success?
    ensures Scan(step, track([]), values).value == track(values)
  {
    if values != [] {
      var front, v := values[..|values| - 1], values[|values| - 1];
      ScanFollows(step, track, front);
      assert front + [v] == values;
    }
  }

  /** Once a value raises, the values after it change nothing. */
  lemma {:induction false} ScanStopsAtFailure<S>(step: (S, RegistryValue) -> Result<S>, init: S, values: seq<RegistryValue>, k: nat)
    requires k <= |values| && Scan(step, init, values[..k]).Failure?
    ensures Scan(step, init, values) == Scan(step, init, values[..k])
    decreases |values| - k
  {
    if k < |values| {
      ScanOneMore(step, init, values, k);
      ScanStopsAtFailure(step, init, values, k + 1);
    } else {
      assert values[..k] == values;
    }
  }

  /** When whether a value raises depends on the value alone, the loop completes
      exactly when every value is accepted. */
  lemma {:induction false} ScanSucceedsIffAllAccepted<S(!new)>(step: (S, RegistryValue) -> Result<S>, init: S,
                                                              values: seq<RegistryValue>, accepts: RegistryValue -> bool)
    requires forall s, v :: step(s, v).Success? <==> accepts(v)
    ensures Scan(step, init, values).Success? <==> forall i :: 0 <= i < |values| ==> accepts(values[i])
  {
    if values != [] {
      var front := values[..|values| - 1];
      ScanSucceedsIffAllAccepted(step, init, front, accepts);
      assert forall i :: 0 <= i < |front| ==> front[i] == values[i];
    }
  }

  /** A value the step leaves every state alone for can be dropped from the key. */
  lemma {:induction false} ScanSkipsIdle<S>(step: (S, RegistryValue) -> Result<S>, init: S,
                                            before: seq<RegistryValue>, v: RegistryValue, after: seq<RegistryValue>)
    requires forall s :: step(s, v) == Success(s)
    ensures Scan(step, init, before + [v] + after) == Scan(step, init, before + after)
    decreases |after|
  {
    if after == [] {
      assert before + [v] + after == before + [v];
      assert (before + [v])[..|before|] == before;
      assert before + after == before;
    } else {
      var front := after[..|after| - 1];
      ScanSkipsIdle(step, init, before, v, front);
      assert (before + [v] + after)[..|before + [v] + after| - 1] == before + [v] + front;
      assert (before + after)[..|before + after| - 1] == before + front;
    }
  }

  /** Which values of the right name leave an attribute alone. */
  datatype Skip = Never | IfNoData | IfEmptyText

  predicate Hits(v: RegistryValue, name: string, skip: Skip) {
    && v.name == name
    && match skip
       case Never => true
       case IfNoData => !v.data.NoData?
       case IfEmptyText => v.data != Str("")
  }

  /** The last value called `name` that `skip` does not pass over. */
  function LastNamed(values: seq<RegistryValue>, name: string, skip: Skip): Option<RegistryValue> {
    if values == [] then None
    else if Hits(values[|values| - 1], name, skip) then Some(values[|values| - 1])
    else LastNamed(values[..|values| - 1], name, skip)
  }

  /** `LastNamed` finds nothing exactly when no value is a hit, and otherwise a hit with no hit after it. */
  lemma {:induction false} LastNamedIsLast(values: seq<RegistryValue>, name: string, skip: Skip)
    ensures var r := LastNamed(values, name, skip);
            && (r.None? <==> forall i :: 0 <= i < |values| ==> !Hits(values[i], name, skip))
            && (r.Some? ==> exists k :: && 0 <= k < |values| && values[k] == r.value && Hits(values[k], name, skip)
                                        && forall j :: k < j < |values| ==> !Hits(values[j], name, skip))
  {
    if values != [] && !Hits(values[|values| - 1], name, skip) {
      var front := values[..|values| - 1];
      LastNamedIsLast(front, name, skip);
      assert forall i :: 0 <= i < |front| ==> front[i] == values[i];
    }
  }

  /** The last value of any name in `values + [v]`. */
  lemma LastNamedOneMore(values: seq<RegistryValue>, v: RegistryValue)
    ensures forall name, skip :: LastNamed(values + [v], name, skip) ==
                                   if Hits(v, name, skip) then Some(v) else LastNamed(values, name, skip)
  {
    assert (values + [v])[..|values|] == values;
  }

  // What the last value of a name holds, read directly from its data.

  function TextOf(o: Option<RegistryValue>): Option<string> {
    if o.Some? && o.value.data.Str? then Some(o.value.data.text) else None
  }

  function IntegerOf(o: Option<RegistryValue>): Option<int> {
    if o.Some? && o.value.data.Int? then Some(o.value.data.n) else None
  }

  function IntegerOr(o: Option<RegistryValue>, default: int): int {
    if o.Some? && o.value.data.Int? then o.value.data.n else default
  }

  /** The text with its first four characters cut off. */
  function HashOf(o: Option<RegistryValue>): Option<string> {
    if o.Some? && o.value.data.Str? then
      var t := o.value.data.text;
      Some(if |t| < 4 then "" else t[4..])
    else None
  }

  /** The lines of a list, or the characters of a text, joined by newlines. */
  function LinesOf(o: Option<RegistryValue>): Option<string> {
    if o.None? then None
    else match o.value.data
      case StrList(items) => Some(JoinLines(items))
      case Str(text) => Some(JoinLines(Chars(text)))
      case _ => None
  }
}
