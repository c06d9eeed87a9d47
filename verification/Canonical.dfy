/** The canonical vocabulary every component shares (src/canonical/event.rs,
    src/canonical/request.rs, src/canonical/usage.rs, src/canonical/error.rs). */
module Canonical {
  import opened Base

  /** A parsed JSON value; object keys are sorted by the library, so a map is faithful. */
  datatype Json =
    | JNull
    | JBool(b: bool)
    | JNum(n: int)
    | JStr(s: string)
    | JArr(items: seq<Json>)
    | JObj(fields: map<string, Json>)

  datatype ErrorKind =
    | Usage
    | ParseInput
    | Config
    | Auth
    | Provider(status: nat)
    | Transport
    | Interrupted
    | OtherKind(tag: string)

  datatype CanonicalError = CanonicalError(
    kind: ErrorKind, message: string, providerDetail: Option<Json>, retryAfterSeconds: Option<nat>)

  /** The status an error is masqueraded with (src/canonical/error.rs:132-140). */
  function HttpStatus(kind: ErrorKind): nat {
    match kind
    case Provider(status) => status
    case Auth => 401
    case Usage => 400
    case ParseInput => 400
    case Transport => 502
    case _ => 500
  }

  datatype Counters = Counters(
    inputTokens: Option<nat>, outputTokens: Option<nat>, cacheReadTokens: Option<nat>,
    cacheWriteTokens: Option<nat>, inputTotalTokens: Option<nat>, thinkingTokens: Option<nat>,
    contextWindow: Option<nat>)

  const NO_COUNTERS := Counters(None, None, None, None, None, None, None)

  datatype Role = System | User | Assistant | Tool

  datatype ContentKind =
    | TextKind
    | ToolUseKind(id: string, name: string)
    | ThinkingKind(itemId: Option<string>)
    | RedactedThinkingKind(data: string)
    | ImageKind(mediaType: string)
    | ServerToolUseKind(id: string, name: string)
    | ServerToolResultKind(kind: string, toolUseId: string, content: Json)
    | UnknownKind(value: Json)

  datatype Delta =
    | TextDelta(text: string)
    | JsonDelta(text: string)
    | ThinkingDelta(text: string)
    | SignatureDelta(text: string)
    | EncryptedReasoningDelta(text: string)
    | ImageDelta(text: string)
    | UnknownDelta(value: Json)

  datatype FinishReason =
    | Stop
    | Length
    | ToolUse
    | StopSequence
    | Pause
    | Refusal(category: string, explanation: Option<string>)
    | OtherReason(reason: string)

  datatype Event =
    | MessageStart(id: Option<string>, model: Option<string>)
    | ContentStart(index: nat, kind: ContentKind)
    | ContentDelta(index: nat, delta: Delta)
    | ContentStop(index: nat)
    | UsageEvent(usage: Counters)
    | Finish(reason: FinishReason)
    | Error(error: CanonicalError)
    | Raw(bytes: Bytes)
    | End
    | OtherEvent

  datatype Content =
    | Text(text: string)
    | Image(source: Source)
    | Document(source: Source)
    | ToolCall(id: string, name: string, input: Json, signature: Option<string>)
    | ToolResult(toolUseId: string, content: seq<Content>, isError: bool)
    | Thinking(text: string, signature: Option<string>, itemId: Option<string>, encryptedContent: Option<string>)
    | RedactedThinking(data: string)
    | ServerToolUse(id: string, name: string, input: Json)
    | ServerToolResult(kind: string, toolUseId: string, result: Json)

  datatype Source = Base64(mediaType: string, data: string) | Url(url: string)

  datatype Message = Message(role: Role, content: seq<Content>)

  // ----- bracketing: which block indices an event list leaves open -----

  /** Replay the starts and stops; `None` when one does not fit (a block started twice,
      or stopped while not open). */
  function Brackets(open: set<nat>, events: seq<Event>): Option<set<nat>>
    decreases |events|
  {
    if events == [] then Some(open)
    else
      match events[0]
      case ContentStart(i, _) => if i in open then None else Brackets(open + {i}, events[1..])
      case ContentStop(i) => if i in open then Brackets(open - {i}, events[1..]) else None
      case _ => Brackets(open, events[1..])
  }

  lemma {:induction false} BracketsAppend(open: set<nat>, a: seq<Event>, b: seq<Event>)
    ensures Brackets(open, a + b)
         == if Brackets(open, a).Some? then Brackets(Brackets(open, a).value, b) else None
    decreases |a|
  {
    if a == [] {
      assert a + b == b;
    } else {
      assert (a + b)[1..] == a[1..] + b;
      match a[0]
      case ContentStart(i, _) => BracketsAppend(open + {i}, a[1..], b);
      case ContentStop(i) => BracketsAppend(open - {i}, a[1..], b);
      case _ => BracketsAppend(open, a[1..], b);
    }
  }

  /** Every start was stopped exactly once and nothing else was stopped. */
  predicate Balanced(events: seq<Event>) {
    Brackets({}, events) == Some({})
  }

  // ----- draining in ascending index order -----

  predicate Ascending(keys: seq<nat>) {
    keys == [] || ((forall k <- keys[1..] :: keys[0] < k) && Ascending(keys[1..]))
  }

  ghost function Elements(keys: seq<nat>): (s: set<nat>)
    ensures forall k :: k in s <==> k in keys
  {
    set k | k in keys
  }

  ghost function Least(s: set<nat>): (m: nat)
    requires s != {}
    ensures m in s && forall x <- s :: m <= x
  {
    var x :| x in s;
    if s == {x} then x
    else
      var rest := Least(s - {x});
      assert s == (s - {x}) + {x};
      if x < rest then x else rest
  }

  /** `sort_unstable` on distinct keys: the one ascending list of a set. */
  ghost function Sorted(s: set<nat>): seq<nat> {
    if s == {} then [] else [Least(s)] + Sorted(s - {Least(s)})
  }

  lemma {:induction false} SortedHas(s: set<nat>, x: nat)
    ensures x in Sorted(s) <==> x in s
  {
    if s != {} {
      SortedHas(s - {Least(s)}, x);
    }
  }

  lemma {:induction false} SortedAscends(s: set<nat>)
    ensures Ascending(Sorted(s))
  {
    if s != {} {
      var m := Least(s);
      var rest := Sorted(s - {m});
      SortedAscends(s - {m});
      assert ([m] + rest)[1..] == rest;
      forall k | k in rest
        ensures m < k
      {
        SortedHas(s - {m}, k);
      }
    }
  }

  lemma {:induction false} SortedHolds(s: set<nat>)
    ensures Ascending(Sorted(s)) && Elements(Sorted(s)) == s
  {
    SortedAscends(s);
    hide Sorted;
    forall x
      ensures x in Sorted(s) <==> x in s
    {
      SortedHas(s, x);
    }
  }

  lemma {:induction false} AscendingIsSorted(keys: seq<nat>, s: set<nat>)
    requires Ascending(keys) && Elements(keys) == s
    ensures keys == Sorted(s)
  {
    if keys == [] {
      assert s == {};
    } else {
      assert keys[0] in s && Least(s) in keys && keys == [keys[0]] + keys[1..];
      assert Least(s) == keys[0];
      assert Elements(keys[1..]) == s - {keys[0]};
      AscendingIsSorted(keys[1..], s - {keys[0]});
    }
  }

  function Insert(keys: seq<nat>, k: nat): seq<nat> {
    if keys == [] || k < keys[0] then [k] + keys else [keys[0]] + Insert(keys[1..], k)
  }

  lemma {:induction false} InsertHas(keys: seq<nat>, k: nat, x: nat)
    ensures x in Insert(keys, k) <==> x == k || x in keys
  {
    if keys != [] && keys[0] <= k {
      InsertHas(keys[1..], k, x);
      assert keys == [keys[0]] + keys[1..];
    }
  }

  lemma {:induction false} InsertKeepsOrder(keys: seq<nat>, k: nat)
    requires Ascending(keys) && k !in keys
    ensures Ascending(Insert(keys, k))
  {
    if keys == [] || k < keys[0] {
      assert ([k] + keys)[1..] == keys;
      assert keys != [] ==> keys == [keys[0]] + keys[1..];
    } else {
      var rest := Insert(keys[1..], k);
      InsertKeepsOrder(keys[1..], k);
      assert ([keys[0]] + rest)[1..] == rest;
      forall x | x in rest
        ensures keys[0] < x
      {
        InsertHas(keys[1..], k, x);
      }
    }
  }

  method SortKeys(s: set<nat>) returns (keys: seq<nat>)
    ensures keys == Sorted(s)
  {
    keys := [];
    var left := s;
    while left != {}
      invariant left <= s && Ascending(keys) && Elements(keys) == s - left
      decreases left
    {
      var k :| k in left;
      assert k !in Elements(keys);
      InsertKeepsOrder(keys, k);
      forall x
        ensures x in Insert(keys, k) <==> x == k || x in keys
      {
        InsertHas(keys, k, x);
      }
      keys := Insert(keys, k);
      left := left - {k};
    }
    AscendingIsSorted(keys, s);
  }

  /** The stops a drain emits: one per open block, ascending. */
  ghost function Stops(keys: seq<nat>): seq<Event> {
    if keys == [] then [] else [ContentStop(keys[0])] + Stops(keys[1..])
  }

  lemma {:induction false} StopsSnoc(keys: seq<nat>, k: nat)
    ensures Stops(keys + [k]) == Stops(keys) + [ContentStop(k)]
  {
    if keys != [] {
      assert (keys + [k])[1..] == keys[1..] + [k];
      StopsSnoc(keys[1..], k);
    }
  }

  lemma {:induction false} StopsClose(keys: seq<nat>, open: set<nat>)
    requires Ascending(keys) && Elements(keys) <= open
    ensures Brackets(open, Stops(keys)) == Some(open - Elements(keys))
  {
    if keys == [] {
      assert open - Elements(keys) == open;
    } else {
      var rest := keys[1..];
      assert keys == [keys[0]] + rest;
      assert keys[0] in Elements(keys) && Elements(keys) == {keys[0]} + Elements(rest);
      StopsClose(rest, open - {keys[0]});
      assert open - {keys[0]} - Elements(rest) == open - Elements(keys);
      assert Stops(keys)[1..] == Stops(rest);
    }
  }
}
