/** Serialising a role-tagged message list into one Mistral / Llama-2 style
    instruction string (`buildMistralPrompt` in index.js):
    `<s>[INST] <<SYS>>\n…\n<</SYS>>\n\nuser [/INST] reply</s>\n<s>[INST] user [/INST]`. */
module Prompt {
  import opened Messages

  const InstOpen: string := "<s>[INST] "
  const InstClose: string := " [/INST]"
  const TurnEnd: string := "</s>"

  /** The `<<SYS>>` block for a non-empty system text; an empty text gives none. */
  function SystemBlock(systemText: string): (r: string)
    ensures systemText == "" <==> r == ""
  {
    if systemText == "" then "" else "<<SYS>>\n" + systemText + "\n<</SYS>>\n\n"
  }

  /** The chunk a user message opens: `<s>[INST] {block}{content} [/INST]`. */
  function OpenChunk(block: string, user: string): string
  {
    InstOpen + block + user + InstClose
  }

  /** What an assistant reply adds to the chunk it answers: ` {content}</s>`. */
  function ClosingReply(assistant: string): string
  {
    " " + assistant + TurnEnd
  }

  /** The reply of a user message is the message right after it, when that is
      an assistant message; otherwise the chunk stays open. */
  function ReplyAfter(rest: seq<Message>): string
  {
    if rest != [] && rest[0].role == Assistant then ClosingReply(rest[0].content) else ""
  }

  /** Reference definition of the chunks, over a list without system messages:
      one chunk per user message, in order, closed by the message right after
      it when that is an assistant message; `block` goes into the first chunk
      only. Every other assistant message (a leading one, a second one in a
      row) contributes nothing. */
  function ReferenceChunks(ns: seq<Message>, block: string): seq<string>
    decreases |ns|
  {
    if ns == [] then []
    else if ns[0].role == User then
      [OpenChunk(block, ns[0].content) + ReplyAfter(ns[1..])] + ReferenceChunks(ns[1..], "")
    else ReferenceChunks(ns[1..], block)
  }

  /** The prompt `buildMistralPrompt(messages, systemText)` returns: the chunks
      joined by newlines. */
  function MistralPrompt(messages: seq<Message>, systemText: string): string
  {
    Join(ReferenceChunks(NonSystem(messages), SystemBlock(systemText)), "\n")
  }

  /** The contents of the user messages, in order. */
  function Users(ns: seq<Message>): seq<string>
  {
    if ns == [] then []
    else (if ns[0].role == User then [ns[0].content] else []) + Users(ns[1..])
  }

  /** The last message of `ns` is a user message still waiting for a reply. */
  predicate EndsOnUser(ns: seq<Message>)
  {
    ns != [] && ns[|ns| - 1].role == User
  }

  /** `s` ends with `t`. */
  predicate EndsWith(s: string, t: string)
  {
    |t| <= |s| && s[|s| - |t|..] == t
  }

  // The three ways one more non-system message changes the chunks; these are
  // the steps of the loop in BuildMistralPrompt.

  /** A user message opens a new chunk; it carries `block` exactly when no
      chunk exists yet. */
  lemma {:induction false} UserOpensChunk(ns: seq<Message>, block: string, content: string)
    ensures ReferenceChunks(ns + [Message(User, content)], block)
         == ReferenceChunks(ns, block)
          + [OpenChunk(if ReferenceChunks(ns, block) == [] then block else "", content)]
    decreases |ns|
  {
    var u := Message(User, content);
    if ns == [] {
      assert ns + [u] == [u] && [u][1..] == [];
      assert OpenChunk(block, content) + ReplyAfter([]) == OpenChunk(block, content);
    } else {
      assert (ns + [u])[1..] == ns[1..] + [u];
      if ns[0].role == User {
        UserOpensChunk(ns[1..], "", content);
        assert ReplyAfter(ns[1..] + [u]) == ReplyAfter(ns[1..]);
      } else {
        UserOpensChunk(ns[1..], block, content);
      }
    }
  }

  /** An assistant message after an unanswered user message closes that
      user message's chunk with ` content</s>`. */
  lemma {:induction false} AssistantClosesOpenChunk(ns: seq<Message>, block: string, content: string)
    requires EndsOnUser(ns)
    ensures var rc := ReferenceChunks(ns, block);
      && rc != []
      && ReferenceChunks(ns + [Message(Assistant, content)], block)
         == rc[..|rc| - 1] + [rc[|rc| - 1] + ClosingReply(content)]
    decreases |ns|
  {
    var a := Message(Assistant, content);
    assert (ns + [a])[1..] == ns[1..] + [a];
    var tail := ns[1..];
    if tail == [] {
      assert ns + [a] == [ns[0], a] && [ns[0], a][1..] == [a] && [a][1..] == [];
      assert OpenChunk(block, ns[0].content) + ReplyAfter([]) == OpenChunk(block, ns[0].content);
      assert ReferenceChunks(ns, block) == [OpenChunk(block, ns[0].content)];
      assert ReferenceChunks(ns + [a], block)
          == [OpenChunk(block, ns[0].content) + ClosingReply(content)] + ReferenceChunks([a], "");
    } else {
      assert tail[|tail| - 1] == ns[|ns| - 1];
      if ns[0].role == User {
        AssistantClosesOpenChunk(tail, "", content);
        assert ReplyAfter(tail + [a]) == ReplyAfter(tail);
        var head := OpenChunk(block, ns[0].content) + ReplyAfter(tail);
        var rt := ReferenceChunks(tail, "");
        assert ReferenceChunks(ns, block) == [head] + rt;
        assert ([head] + rt)[..|rt|] == [head] + rt[..|rt| - 1];
      } else {
        AssistantClosesOpenChunk(tail, block, content);
      }
    }
  }

  /** An assistant message with no unanswered user message before it (a
      leading one, or a second one in a row) is dropped. */
  lemma {:induction false} AssistantWithoutOpenChunkDropped(ns: seq<Message>, block: string, content: string)
    requires !EndsOnUser(ns)
    ensures ReferenceChunks(ns + [Message(Assistant, content)], block) == ReferenceChunks(ns, block)
    decreases |ns|
  {
    var a := Message(Assistant, content);
    if ns != [] {
      assert (ns + [a])[1..] == ns[1..] + [a];
      var tail := ns[1..];
      if tail != [] {
        assert tail[|tail| - 1] == ns[|ns| - 1];
      }
      if ns[0].role == User {
        AssistantWithoutOpenChunkDropped(tail, "", content);
        assert ReplyAfter(tail + [a]) == ReplyAfter(tail);
      } else {
        AssistantWithoutOpenChunkDropped(tail, block, content);
      }
    } else {
      assert [a][1..] == [];
    }
  }

  /** What the loop of `buildMistralPrompt` keeps after the non-system
      messages `seen`: `chunks` are their reference chunks, `firstUserFound`
      says whether a chunk exists, and `pendingAssistant` whether the last
      of them is an unanswered user message. */
  ghost predicate Tracks(seen: seq<Message>, chunks: seq<string>, firstUserFound: bool, pendingAssistant: bool, block: string)
  {
    && chunks == ReferenceChunks(seen, block)
    && (firstUserFound <==> chunks != [])
    && (pendingAssistant <==> EndsOnUser(seen))
    && (pendingAssistant ==> chunks != [])
  }

  // One lemma per branch of the loop: how the loop state after the first
  // `i` messages becomes the state after the first `i + 1`.

  /** A system message changes nothing. */
  lemma SystemStep(messages: seq<Message>, i: nat, chunks: seq<string>, firstUserFound: bool, pendingAssistant: bool, block: string)
    requires i < |messages| && messages[i].role == System
    requires Tracks(NonSystem(messages[..i]), chunks, firstUserFound, pendingAssistant, block)
    ensures Tracks(NonSystem(messages[..i + 1]), chunks, firstUserFound, pendingAssistant, block)
  {
    NonSystemStep(messages, i);
    assert NonSystem(messages[..i]) + [] == NonSystem(messages[..i]);
  }

  /** The first user message opens the first chunk, with the system block. */
  lemma FirstUserStep(messages: seq<Message>, i: nat, chunks: seq<string>, pendingAssistant: bool, block: string)
    requires i < |messages| && messages[i].role == User
    requires Tracks(NonSystem(messages[..i]), chunks, false, pendingAssistant, block)
    ensures Tracks(NonSystem(messages[..i + 1]), chunks + [InstOpen + block + messages[i].content + InstClose], true, true, block)
  {
    NonSystemStep(messages, i);
    assert messages[i] == Message(User, messages[i].content);
    UserOpensChunk(NonSystem(messages[..i]), block, messages[i].content);
  }

  /** An assistant message answering the open chunk is appended to it. */
  lemma AnswerStep(messages: seq<Message>, i: nat, chunks: seq<string>, block: string)
    requires i < |messages| && messages[i].role == Assistant
    requires Tracks(NonSystem(messages[..i]), chunks, true, true, block)
    ensures chunks != []
    ensures Tracks(NonSystem(messages[..i + 1]),
                   chunks[..|chunks| - 1] + [chunks[|chunks| - 1] + (" " + messages[i].content + TurnEnd)], true, false, block)
  {
    NonSystemStep(messages, i);
    assert messages[i] == Message(Assistant, messages[i].content);
    AssistantClosesOpenChunk(NonSystem(messages[..i]), block, messages[i].content);
  }

  /** A later user message opens a chunk without the system block. */
  lemma LaterUserStep(messages: seq<Message>, i: nat, chunks: seq<string>, pendingAssistant: bool, block: string)
    requires i < |messages| && messages[i].role == User
    requires Tracks(NonSystem(messages[..i]), chunks, true, pendingAssistant, block)
    ensures Tracks(NonSystem(messages[..i + 1]), chunks + [InstOpen + messages[i].content + InstClose], true, true, block)
  {
    NonSystemStep(messages, i);
    assert messages[i] == Message(User, messages[i].content);
    UserOpensChunk(NonSystem(messages[..i]), block, messages[i].content);
    assert InstOpen + "" == InstOpen;
  }

  /** An assistant message with nothing to answer leaves everything as it is. */
  lemma DroppedStep(messages: seq<Message>, i: nat, chunks: seq<string>, firstUserFound: bool, block: string)
    requires i < |messages| && messages[i].role == Assistant
    requires Tracks(NonSystem(messages[..i]), chunks, firstUserFound, false, block)
    ensures Tracks(NonSystem(messages[..i + 1]), chunks, firstUserFound, false, block)
  {
    NonSystemStep(messages, i);
    assert messages[i] == Message(Assistant, messages[i].content);
    AssistantWithoutOpenChunkDropped(NonSystem(messages[..i]), block, messages[i].content);
  }

  /** `buildMistralPrompt`: a loop over the messages that pushes onto and
      extends `chunks` in place, driven by the `firstUserFound` and
      `pendingAssistant` flags. */
  method BuildMistralPrompt(messages: seq<Message>, systemText: string) returns (prompt: string)
    ensures prompt == MistralPrompt(messages, systemText)
  {
    var chunks: seq<string> := [];
    var firstUserFound := false;
    var pendingAssistant := false;
    var systemBlock := if systemText != "" then "<<SYS>>\n" + systemText + "\n<</SYS>>\n\n" else "";
    for i := 0 to |messages|
      invariant Tracks(NonSystem(messages[..i]), chunks, firstUserFound, pendingAssistant, systemBlock)
    {
      var m := messages[i];
      if m.role == System {
        // the system text is passed separately; a system message is skipped
        SystemStep(messages, i, chunks, firstUserFound, pendingAssistant, systemBlock);
      } else if !firstUserFound && m.role == User {
        FirstUserStep(messages, i, chunks, pendingAssistant, systemBlock);
        firstUserFound := true;
        chunks := chunks + [InstOpen + systemBlock + m.content + InstClose];
        pendingAssistant := true;
      } else if m.role == Assistant && pendingAssistant {
        AnswerStep(messages, i, chunks, systemBlock);
        chunks := chunks[..|chunks| - 1] + [chunks[|chunks| - 1] + (" " + m.content + TurnEnd)];
        pendingAssistant := false;
      } else if m.role == User {
        LaterUserStep(messages, i, chunks, pendingAssistant, systemBlock);
        chunks := chunks + [InstOpen + m.content + InstClose];
        pendingAssistant := true;
      } else if m.role == Assistant && pendingAssistant {
        // the duplicate branch of the source: the third branch above already
        // takes every message that reaches it
        assert false;
      } else {
        DroppedStep(messages, i, chunks, firstUserFound, systemBlock);
      }
    }
    assert messages[..|messages|] == messages;
    prompt := Join(chunks, "\n");
  }

  /** System messages in the list play no part: the system text comes in
      through `systemText` alone. */
  lemma PromptIgnoresSystemMessages(messages: seq<Message>, systemText: string)
    ensures MistralPrompt(messages, systemText) == MistralPrompt(NonSystem(messages), systemText)
  {
    NonSystemIdempotent(messages);
  }

  /** Exactly one chunk per user message. */
  lemma {:induction false} ChunkCount(ns: seq<Message>, block: string)
    ensures |ReferenceChunks(ns, block)| == |Users(ns)|
    decreases |ns|
  {
    if ns != [] {
      ChunkCount(ns[1..], if ns[0].role == User then "" else block);
    }
  }

  /** Chunk `k` opens with `<s>[INST] `, then the system block when `k == 0`,
      then the `k`-th user message and ` [/INST]`. */
  lemma {:induction false} ChunkPerUserMessage(ns: seq<Message>, block: string)
    ensures |ReferenceChunks(ns, block)| == |Users(ns)|
    ensures forall k :: 0 <= k < |Users(ns)| ==>
      OpenChunk(if k == 0 then block else "", Users(ns)[k]) <= ReferenceChunks(ns, block)[k]
    decreases |ns|
  {
    ChunkCount(ns, block);
    if ns != [] {
      var tail := ns[1..];
      if ns[0].role == User {
        ChunkPerUserMessage(tail, "");
        var rc := ReferenceChunks(ns, block);
        var rt := ReferenceChunks(tail, "");
        var us := Users(ns);
        var ut := Users(tail);
        assert us == [ns[0].content] + ut;
        assert rc == [OpenChunk(block, ns[0].content) + ReplyAfter(tail)] + rt;
        forall k | 0 <= k < |us|
          ensures OpenChunk(if k == 0 then block else "", us[k]) <= rc[k]
        {
          if k > 0 {
            assert us[k] == ut[k - 1];
            assert rc[k] == rt[k - 1];
          }
        }
      } else {
        ChunkPerUserMessage(tail, block);
        assert Users(ns) == Users(tail);
      }
    }
  }

  /** The system block changes the first chunk only, where it follows
      `<s>[INST] `; every later chunk is what it would be without it. */
  lemma {:induction false} SystemBlockOnlyInFirstChunk(ns: seq<Message>, block: string)
    ensures var withBlock := ReferenceChunks(ns, block); var plain := ReferenceChunks(ns, "");
      && |withBlock| == |plain|
      && (forall k :: 0 < k < |plain| ==> withBlock[k] == plain[k])
      && (plain != [] ==> |InstOpen| <= |plain[0]| && withBlock[0] == InstOpen + block + plain[0][|InstOpen|..])
    decreases |ns|
  {
    if ns != [] {
      if ns[0].role == User {
        var rest := ns[0].content + InstClose + ReplyAfter(ns[1..]);
        assert OpenChunk(block, ns[0].content) + ReplyAfter(ns[1..]) == InstOpen + block + rest;
        assert OpenChunk("", ns[0].content) + ReplyAfter(ns[1..]) == InstOpen + rest;
        assert (InstOpen + rest)[|InstOpen|..] == rest;
      } else {
        SystemBlockOnlyInFirstChunk(ns[1..], block);
      }
    }
  }

  lemma PrefixTransitive(a: string, b: string, c: string)
    requires a <= b && b <= c
    ensures a <= c
  {
    assert c[..|a|] == c[..|b|][..|a|];
  }

  /** No user message, no prompt (in particular for an empty list); otherwise
      the prompt opens with the first user message's block, carrying the
      system block when the system text is non-empty. */
  lemma PromptOpening(messages: seq<Message>, systemText: string)
    ensures messages == [] ==> MistralPrompt(messages, systemText) == ""
    ensures Users(NonSystem(messages)) == [] <==> MistralPrompt(messages, systemText) == ""
    ensures var us := Users(NonSystem(messages));
      us != [] ==> OpenChunk(SystemBlock(systemText), us[0]) <= MistralPrompt(messages, systemText)
  {
    var ns := NonSystem(messages);
    var block := SystemBlock(systemText);
    var rc := ReferenceChunks(ns, block);
    var prompt := Join(rc, "\n");
    ChunkPerUserMessage(ns, block);
    if rc != [] {
      var head := OpenChunk(block, Users(ns)[0]);
      assert head <= rc[0];
      JoinStartsWithFirst(rc, "\n");
      PrefixTransitive(head, rc[0], prompt);
      assert |head| >= |InstOpen| > 0;
    }
  }

  lemma EndsWithTransitive(s: string, t: string, u: string)
    requires EndsWith(s, t) && EndsWith(t, u)
    ensures EndsWith(s, u)
  {
    assert s[|s| - |u|..] == s[|s| - |t|..][|t| - |u|..];
  }

  /** Joining ends with the last part. */
  lemma JoinEndsWithLast(parts: seq<string>, last: string)
    ensures EndsWith(Join(parts + [last], "\n"), last)
  {
    JoinSnoc(parts, last, "\n");
    if parts != [] {
      var front := Join(parts, "\n") + "\n";
      assert Join(parts + [last], "\n") == front + last;
      assert (front + last)[|front|..] == last;
    }
  }

  /** A chunk opened by a user message ends with that message and ` [/INST]`. */
  lemma OpenChunkEnds(block: string, content: string)
    ensures EndsWith(OpenChunk(block, content), content + InstClose)
  {
    var lead := InstOpen + block;
    assert OpenChunk(block, content) == lead + (content + InstClose);
    assert (lead + (content + InstClose))[|lead|..] == content + InstClose;
  }

  /** The joined chunks end with the chunk the last user message opened. */
  lemma ChunksEndOpen(ns: seq<Message>, block: string)
    requires EndsOnUser(ns)
    ensures EndsWith(Join(ReferenceChunks(ns, block), "\n"), ns[|ns| - 1].content + InstClose)
  {
    var content := ns[|ns| - 1].content;
    var init := ns[..|ns| - 1];
    assert ns == init + [Message(User, content)];
    UserOpensChunk(init, block, content);
    var rc := ReferenceChunks(init, block);
    var firstBlock := if rc == [] then block else "";
    var chunk := OpenChunk(firstBlock, content);
    JoinEndsWithLast(rc, chunk);
    OpenChunkEnds(firstBlock, content);
    EndsWithTransitive(Join(rc + [chunk], "\n"), chunk, content + InstClose);
  }

  /** When the last non-system message is a user message the prompt ends
      with that message and ` [/INST]`: the block is left open for the model
      to continue. */
  lemma PromptEndsOpen(messages: seq<Message>, systemText: string)
    requires EndsOnUser(NonSystem(messages))
    ensures var ns := NonSystem(messages);
      EndsWith(MistralPrompt(messages, systemText), ns[|ns| - 1].content + InstClose)
  {
    ChunksEndOpen(NonSystem(messages), SystemBlock(systemText));
  }

  lemma {:induction false} LeadingMessagesDroppedChunks(before: seq<Message>, after: seq<Message>, block: string)
    requires Users(before) == []
    ensures ReferenceChunks(before + after, block) == ReferenceChunks(after, block)
    decreases |before|
  {
    if before != [] {
      assert (before + after)[1..] == before[1..] + after;
      assert before[0].role != User;
      LeadingMessagesDroppedChunks(before[1..], after, block);
    } else {
      assert before + after == after;
    }
  }

  lemma {:induction false} SecondAssistantDroppedChunks(before: seq<Message>, first: string, second: string, after: seq<Message>, block: string)
    ensures ReferenceChunks(before + [Message(Assistant, first), Message(Assistant, second)] + after, block)
         == ReferenceChunks(before + [Message(Assistant, first)] + after, block)
    decreases |before|
  {
    var a1 := Message(Assistant, first);
    var a2 := Message(Assistant, second);
    var long := before + [a1, a2] + after;
    var short := before + [a1] + after;
    if before == [] {
      assert long[1..] == [a2] + after && ([a2] + after)[1..] == after;
      assert short[1..] == after;
    } else {
      assert long[1..] == before[1..] + [a1, a2] + after;
      assert short[1..] == before[1..] + [a1] + after;
      if before[0].role == User {
        SecondAssistantDroppedChunks(before[1..], first, second, after, "");
        if before[1..] == [] {
          assert ReplyAfter(long[1..]) == ClosingReply(first) == ReplyAfter(short[1..]);
        } else {
          assert ReplyAfter(long[1..]) == ReplyAfter(before[1..]) == ReplyAfter(short[1..]);
        }
      } else {
        SecondAssistantDroppedChunks(before[1..], first, second, after, block);
      }
    }
  }

  /** Everything before the first user message (a leading assistant
      message in particular) is dropped. */
  lemma LeadingAssistantDropped(before: seq<Message>, after: seq<Message>, systemText: string)
    requires Users(NonSystem(before)) == []
    ensures MistralPrompt(before + after, systemText) == MistralPrompt(after, systemText)
  {
    NonSystemAppend(before, after);
    LeadingMessagesDroppedChunks(NonSystem(before), NonSystem(after), SystemBlock(systemText));
  }

  /** Of two assistant messages in a row (system messages aside) the second
      is dropped. */
  lemma SecondAssistantDropped(before: seq<Message>, first: string, second: string, after: seq<Message>, systemText: string)
    ensures MistralPrompt(before + [Message(Assistant, first), Message(Assistant, second)] + after, systemText)
         == MistralPrompt(before + [Message(Assistant, first)] + after, systemText)
  {
    var a1 := Message(Assistant, first);
    var a2 := Message(Assistant, second);
    NonSystemAppend(before + [a1, a2], after);
    NonSystemAppend(before, [a1, a2]);
    NonSystemAppend(before + [a1], after);
    NonSystemAppend(before, [a1]);
    assert NonSystem([a1, a2]) == [a1, a2] && NonSystem([a1]) == [a1];
    SecondAssistantDroppedChunks(NonSystem(before), first, second, NonSystem(after), SystemBlock(systemText));
  }

  /** A user turn, its reply and a new user turn: one closed block, then one
      open block for the model to answer. */
  lemma ThreeTurnExample()
    ensures MistralPrompt([Message(User, "A"), Message(Assistant, "B"), Message(User, "C")], "")
         == "<s>[INST] A [/INST] B</s>\n<s>[INST] C [/INST]"
  {
    var ms := [Message(User, "A"), Message(Assistant, "B"), Message(User, "C")];
    assert NoSystem(ms);
    assert ms[1..] == [Message(Assistant, "B"), Message(User, "C")];
    assert ms[1..][1..] == [Message(User, "C")];
    var second := ReferenceChunks([Message(User, "C")], "");
    assert [Message(User, "C")][1..] == [];
    assert OpenChunk("", "C") == "<s>[INST] C [/INST]";
    assert second == [OpenChunk("", "C") + ""];
    assert OpenChunk("", "C") + "" == OpenChunk("", "C");
    assert second == ["<s>[INST] C [/INST]"];
    assert OpenChunk("", "A") + ClosingReply("B") == "<s>[INST] A [/INST] B</s>";
    assert ReferenceChunks(ms[1..], "") == second;
    assert ReplyAfter(ms[1..]) == ClosingReply("B");
    assert ReferenceChunks(ms, "") == [OpenChunk("", "A") + ClosingReply("B")] + second;
    var chunks := ["<s>[INST] A [/INST] B</s>", "<s>[INST] C [/INST]"];
    assert ReferenceChunks(ms, "") == chunks;
    assert chunks[1..] == ["<s>[INST] C [/INST]"];
    assert Join(chunks, "\n") == "<s>[INST] A [/INST] B</s>" + "\n" + "<s>[INST] C [/INST]";
  }
}
