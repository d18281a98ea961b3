/** Bounding the conversation history before it is sent upstream
    (`trimContext` in index.js). The first system message is kept in front;
    of the other messages only the most recent `2 * maxTurns` are kept, and
    then the oldest two at a time are dropped while the newline-joined
    contents are longer than `maxChars` and more than two of them remain. */
module ContextTrim {
  import opened Messages

  /** `list.slice(-n)`: the last `n` elements; `slice(-0)` is `slice(0)`,
      which keeps the whole list, and so does an `n` beyond its length. */
  function SliceFromEnd(s: seq<Message>, n: nat): (r: seq<Message>)
    ensures |r| <= |s| && r == s[|s| - |r|..]
    ensures n == 0 ==> r == s
    ensures n > 0 ==> |r| == if n < |s| then n else |s|
  {
    if n == 0 || n >= |s| then s else s[|s| - n..]
  }

  /** `rebuild(list)`: the contents of the system message and of `list`,
      joined by newlines; its length is what is held against `maxChars`. */
  function Rebuild(system: Option<Message>, list: seq<Message>): string
  {
    Join(Contents(WithSystem(system, list)), "\n")
  }

  /** The budget test of the loop at index.js:104 no longer asks for a drop. */
  predicate WithinBudget(system: Option<Message>, list: seq<Message>, maxChars: nat)
  {
    |Rebuild(system, list)| <= maxChars || |list| <= 2
  }

  /** The character loop: drop the oldest two messages while over budget and
      more than two remain. */
  function DropOldestPairs(system: Option<Message>, list: seq<Message>, maxChars: nat): seq<Message>
    decreases |list|
  {
    if WithinBudget(system, list, maxChars) then list
    else DropOldestPairs(system, list[2..], maxChars)
  }

  /** The loop keeps a suffix of `list`, shorter by an even count, and never
      empties a non-empty list. */
  lemma {:induction false} DropOldestPairsSuffix(system: Option<Message>, list: seq<Message>, maxChars: nat)
    ensures var r := DropOldestPairs(system, list, maxChars);
      IsSuffix(r, list) && (|list| - |r|) % 2 == 0 && (list != [] ==> r != [])
    decreases |list|
  {
    var r := DropOldestPairs(system, list, maxChars);
    if !WithinBudget(system, list, maxChars) {
      var tail := list[2..];
      assert r == DropOldestPairs(system, tail, maxChars);
      DropOldestPairsSuffix(system, tail, maxChars);
      assert IsSuffix(tail, list);
      SuffixTransitive(r, tail, list);
    }
  }

  /** The kept suffix is within budget, and the candidate two messages longer
      was not: the loop drops no pair it did not have to. */
  lemma {:induction false} DropOldestPairsBudget(system: Option<Message>, list: seq<Message>, maxChars: nat)
    ensures var r := DropOldestPairs(system, list, maxChars);
      && WithinBudget(system, r, maxChars)
      && (|r| < |list| ==> |r| + 2 <= |list| && !WithinBudget(system, list[|list| - |r| - 2..], maxChars))
    decreases |list|
  {
    if !WithinBudget(system, list, maxChars) {
      var tail := list[2..];
      DropOldestPairsBudget(system, tail, maxChars);
      DropOldestPairsSuffix(system, tail, maxChars);
      var r := DropOldestPairs(system, tail, maxChars);
      if |r| < |tail| {
        assert tail[|tail| - |r| - 2..] == list[|list| - |r| - 2..];
      }
    }
  }

  /** The non-system messages `trimContext` keeps, oldest first. */
  function Kept(messages: seq<Message>, maxTurns: nat, maxChars: nat): seq<Message>
  {
    DropOldestPairs(FirstSystem(messages), SliceFromEnd(NonSystem(messages), maxTurns * 2), maxChars)
  }

  lemma KeptIsSuffix(messages: seq<Message>, maxTurns: nat, maxChars: nat)
    ensures IsSuffix(Kept(messages, maxTurns, maxChars), NonSystem(messages))
    ensures NoSystem(Kept(messages, maxTurns, maxChars))
  {
    var ns := NonSystem(messages);
    var s := SliceFromEnd(ns, maxTurns * 2);
    var k := Kept(messages, maxTurns, maxChars);
    DropOldestPairsSuffix(FirstSystem(messages), s, maxChars);
    SuffixTransitive(k, s, ns);
    NoSystemSuffix(k, ns);
  }

  /** What `trimContext(messages)` returns, with `MAX_TURNS` and `MAX_CHARS`
      as parameters. An empty history is returned as it is. */
  function Trimmed(messages: seq<Message>, maxTurns: nat, maxChars: nat): seq<Message>
  {
    if messages == [] then messages
    else WithSystem(FirstSystem(messages), Kept(messages, maxTurns, maxChars))
  }

  /** `trimContext`, as the loops the source runs: copy the non-system
      messages, keep the last `2 * maxTurns`, then drop pairs while over the
      character budget. */
  method TrimContext(messages: seq<Message>, maxTurns: nat, maxChars: nat) returns (result: seq<Message>)
    ensures result == Trimmed(messages, maxTurns, maxChars)
  {
    if |messages| == 0 {
      return messages;
    }
    var system := FirstSystem(messages);
    var rest := NonSystem(messages);
    var paired: seq<Message> := [];
    for i := 0 to |rest|
      invariant paired == rest[..i]
    {
      paired := paired + [rest[i]];
    }
    assert paired == rest;
    var maxItems := maxTurns * 2;
    var trimmed := SliceFromEnd(paired, maxItems);
    while |Rebuild(system, trimmed)| > maxChars && |trimmed| > 2
      invariant DropOldestPairs(system, trimmed, maxChars) == Kept(messages, maxTurns, maxChars)
      decreases |trimmed|
    {
      trimmed := trimmed[2..];
    }
    result := WithSystem(system, trimmed);
  }

  /** The shape of the result: the first system message of the input (and no
      other) in front, then a contiguous suffix of the input's non-system
      messages in their original order. An empty history stays empty. */
  lemma TrimmedShape(messages: seq<Message>, maxTurns: nat, maxChars: nat)
    ensures messages == [] ==> Trimmed(messages, maxTurns, maxChars) == []
    ensures var r := Trimmed(messages, maxTurns, maxChars);
      && FirstSystem(r) == FirstSystem(messages)
      && r == WithSystem(FirstSystem(r), NonSystem(r))
      && IsSuffix(NonSystem(r), NonSystem(messages))
  {
    var system := FirstSystem(messages);
    var k := Kept(messages, maxTurns, maxChars);
    if messages != [] {
      KeptIsSuffix(messages, maxTurns, maxChars);
      WithSystemParts(system, k);
    }
  }

  /** With `maxTurns >= 1` at most `2 * maxTurns` non-system messages are
      kept; with `maxTurns == 0` the count limit keeps everything, as
      `slice(-0)` does, and only the character budget drops messages. */
  lemma TrimmedTurnBound(messages: seq<Message>, maxTurns: nat, maxChars: nat)
    ensures maxTurns >= 1 ==> |NonSystem(Trimmed(messages, maxTurns, maxChars))| <= 2 * maxTurns
    ensures maxTurns == 0 ==>
      Kept(messages, maxTurns, maxChars) == DropOldestPairs(FirstSystem(messages), NonSystem(messages), maxChars)
  {
    if messages != [] {
      var system := FirstSystem(messages);
      var s := SliceFromEnd(NonSystem(messages), maxTurns * 2);
      KeptIsSuffix(messages, maxTurns, maxChars);
      WithSystemParts(system, Kept(messages, maxTurns, maxChars));
      DropOldestPairsSuffix(system, s, maxChars);
    }
  }

  /** On return the newline-joined contents of the result fit in `maxChars`,
      or at most two non-system messages are left. */
  lemma TrimmedCharBound(messages: seq<Message>, maxTurns: nat, maxChars: nat)
    ensures var r := Trimmed(messages, maxTurns, maxChars);
      |Join(Contents(r), "\n")| <= maxChars || |NonSystem(r)| <= 2
  {
    if messages != [] {
      var system := FirstSystem(messages);
      var s := SliceFromEnd(NonSystem(messages), maxTurns * 2);
      KeptIsSuffix(messages, maxTurns, maxChars);
      WithSystemParts(system, Kept(messages, maxTurns, maxChars));
      DropOldestPairsBudget(system, s, maxChars);
    }
  }

  /** The most recent non-system message always survives, last. */
  lemma TrimmedKeepsLatest(messages: seq<Message>, maxTurns: nat, maxChars: nat)
    requires NonSystem(messages) != []
    ensures var r := Trimmed(messages, maxTurns, maxChars); var ns := NonSystem(messages);
      r != [] && r[|r| - 1] == ns[|ns| - 1]
  {
    var ns := NonSystem(messages);
    var system := FirstSystem(messages);
    var s := SliceFromEnd(ns, maxTurns * 2);
    var k := Kept(messages, maxTurns, maxChars);
    assert s != [] && s[|s| - 1] == ns[|ns| - 1] by {
      LastOfSuffix(s, ns);
    }
    assert k != [] && k[|k| - 1] == s[|s| - 1] by {
      DropOldestPairsSuffix(system, s, maxChars);
      LastOfSuffix(k, s);
    }
    assert messages != [];
    WithSystemLast(system, k);
  }

  /** The non-system part of a trimmed history already passes both limits. */
  lemma KeptIsStable(messages: seq<Message>, maxTurns: nat, maxChars: nat)
    ensures var system := FirstSystem(messages); var k := Kept(messages, maxTurns, maxChars);
      DropOldestPairs(system, SliceFromEnd(k, maxTurns * 2), maxChars) == k
  {
    var system := FirstSystem(messages);
    var s := SliceFromEnd(NonSystem(messages), maxTurns * 2);
    var k := Kept(messages, maxTurns, maxChars);
    DropOldestPairsSuffix(system, s, maxChars);
    DropOldestPairsBudget(system, s, maxChars);
    assert SliceFromEnd(k, maxTurns * 2) == k;
  }

  /** Trimming a trimmed history changes nothing. */
  lemma TrimmedIdempotent(messages: seq<Message>, maxTurns: nat, maxChars: nat)
    ensures Trimmed(Trimmed(messages, maxTurns, maxChars), maxTurns, maxChars)
         == Trimmed(messages, maxTurns, maxChars)
  {
    var t := Trimmed(messages, maxTurns, maxChars);
    if messages != [] && t != [] {
      var system := FirstSystem(messages);
      var k := Kept(messages, maxTurns, maxChars);
      KeptIsSuffix(messages, maxTurns, maxChars);
      WithSystemParts(system, k);
      KeptIsStable(messages, maxTurns, maxChars);
      assert Kept(t, maxTurns, maxChars) == k;
    }
  }
}
