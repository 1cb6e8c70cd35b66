/** From execution to text: every interleaving writes the same response. */
module Response {
  import opened Wrappers
  import opened Execution
  import opened Interleaving
  import opened InterleavingLaws
  import opened Races
  import opened Aliases
  import Json
  import JsonRoundTrip

  /** The marshalled data as a JSON tree; leaves are written as strings. */
  function TreeOf(d: Data): Json.Json
    decreases d
  {
    match d
    case Null => Json.Null
    case Scalar(text) => Json.Str(text)
    case Array(items) => Json.Arr(seq(|items|, i requires 0 <= i < |items| => TreeOf(items[i])))
    case Record(slots) => Json.Obj(seq(|slots|, i requires 0 <= i < |slots| => MemberOf(slots[i])))
  }

  function MemberOf(slot: (string, Data)): Json.Member
    decreases slot
  {
    Json.Member(slot.0, TreeOf(slot.1))
  }

  /** The JSON shows the data: null for null, texts as strings, arrays item by item, and records
      member by member under the same names, in order. */
  ghost predicate Pictures(j: Json.Json, d: Data)
    decreases d
  {
    match d
    case Null => j == Json.Null
    case Scalar(text) => j == Json.Str(text)
    case Array(items) =>
      j.Arr? && |j.items| == |items| && forall i :: 0 <= i < |items| ==> Pictures(j.items[i], items[i])
    case Record(slots) =>
      && j.Obj? && |j.members| == |slots|
      && forall i :: 0 <= i < |slots| ==> j.members[i].alias == slots[i].0 && Pictures(j.members[i].value, slots[i].1)
  }

  lemma {:induction false} TreePictures(d: Data)
    ensures Pictures(TreeOf(d), d)
    decreases d
  {
    match d
    case Array(items) =>
      forall i | 0 <= i < |items| ensures Pictures(TreeOf(items[i]), items[i]) {
        TreePictures(items[i]);
      }
    case Record(slots) =>
      forall i | 0 <= i < |slots| ensures Pictures(TreeOf(slots[i].1), slots[i].1) {
        TreePictures(slots[i].1);
      }
    case _ =>
  }

  /** Two interleavings of an execution that both end write the same text, which parses to a picture
      of the data; and, if no object has two concurrent fields of one alias, they record the same errors. */
  lemma {:induction false} ResponsesAgree(a: Answer, one: seq<seq<nat>>, other: seq<seq<nat>>)
    requires Run(Start(a), [], one).Some? && Run(Start(a), [], one).value.task.Done?
    requires Run(Start(a), [], other).Some? && Run(Start(a), [], other).value.task.Done?
    ensures var s, t := Run(Start(a), [], one).value, Run(Start(a), [], other).value;
            && Json.Write(TreeOf(s.task.data)) == Json.Write(TreeOf(t.task.data))
            && Json.Parse(Json.Write(TreeOf(s.task.data))) == Json.Got(TreeOf(DataOf(a)), "")
            && Pictures(TreeOf(DataOf(a)), DataOf(a))
            && (Ordered(a) ==> multiset(s.errors) == multiset(t.errors))
  {
    EveryInterleaving(a, one);
    EveryInterleaving(a, other);
    JsonRoundTrip.RoundTrip(TreeOf(DataOf(a)));
    TreePictures(DataOf(a));
    if Ordered(a) {
      OrderedRunsAgree(a, one);
      OrderedRunsAgree(a, other);
    }
  }
}
