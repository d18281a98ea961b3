/** Role-tagged chat messages and the list operations the server applies to
    them: the `find`, `filter`, `map` and `join` calls of index.js. */
module Messages {

  datatype Role = System | User | Assistant

  /** `{ role, content }`, immutable once appended to a conversation. */
  datatype Message = Message(role: Role, content: string)

  datatype Option<T> = None | Some(value: T)

  /** No message of `ms` has the system role. */
  predicate NoSystem(ms: seq<Message>)
  {
    forall i :: 0 <= i < |ms| ==> ms[i].role != System
  }

  /** `t` is a contiguous suffix of `s` (what `s.slice(k)` returns for some `k`). */
  predicate IsSuffix(t: seq<Message>, s: seq<Message>)
  {
    |t| <= |s| && s[|s| - |t|..] == t
  }

  /** `ms.find(m => m.role === "system")`: the first system message, if any. */
  function FirstSystem(ms: seq<Message>): (r: Option<Message>)
    ensures r.None? <==> NoSystem(ms)
    ensures r.Some? ==> r.value in ms && r.value.role == System
  {
    if ms == [] then None
    else if ms[0].role == System then Some(ms[0])
    else
      assert forall i :: 1 <= i < |ms| ==> ms[1..][i - 1] == ms[i];
      FirstSystem(ms[1..])
  }

  /** What `find` returns is the first system message: it sits at some
      index `j` and no message before `j` is a system message. */
  lemma {:induction false} FirstSystemIsFirst(ms: seq<Message>)
    ensures var r := FirstSystem(ms);
      r.Some? ==> exists j :: 0 <= j < |ms| && ms[j] == r.value && NoSystem(ms[..j])
  {
    if ms != [] {
      if ms[0].role == System {
        assert ms[0] == FirstSystem(ms).value && NoSystem(ms[..0]);
      } else {
        FirstSystemIsFirst(ms[1..]);
        var r := FirstSystem(ms[1..]);
        if r.Some? {
          var j :| 0 <= j < |ms[1..]| && ms[1..][j] == r.value && NoSystem(ms[1..][..j]);
          assert ms[j + 1] == r.value;
          assert ms[..j + 1] == [ms[0]] + ms[1..][..j];
          assert NoSystem(ms[..j + 1]);
        }
      }
    }
  }

  /** `ms.filter(m => m.role !== "system")`: the other messages, in their order. */
  function NonSystem(ms: seq<Message>): (r: seq<Message>)
    ensures NoSystem(r) && |r| <= |ms|
  {
    if ms == [] then [] else (if ms[0].role == System then [] else [ms[0]]) + NonSystem(ms[1..])
  }

  /** A list without system messages passes the filter unchanged. */
  lemma {:induction false} NonSystemKeepsAll(ms: seq<Message>)
    requires NoSystem(ms)
    ensures NonSystem(ms) == ms
  {
    if ms != [] {
      assert ms[0].role != System;
      assert NoSystem(ms[1..]) by {
        forall i | 0 <= i < |ms[1..]| ensures ms[1..][i].role != System {
          assert ms[1..][i] == ms[i + 1];
        }
      }
      NonSystemKeepsAll(ms[1..]);
      assert ms == [ms[0]] + ms[1..];
    }
  }

  /** `[system, ...list].filter(Boolean)`: the list with the system message,
      when there is one, in front. */
  function WithSystem(system: Option<Message>, list: seq<Message>): seq<Message>
  {
    if system.Some? then [system.value] + list else list
  }

  /** `ms.map(m => m.content)`. */
  function Contents(ms: seq<Message>): seq<string>
  {
    if ms == [] then [] else [ms[0].content] + Contents(ms[1..])
  }

  /** `parts.join(sep)`: the parts with `sep` between each two neighbours. */
  function Join(parts: seq<string>, sep: string): string
  {
    if |parts| == 0 then ""
    else if |parts| == 1 then parts[0]
    else parts[0] + sep + Join(parts[1..], sep)
  }

  /** The joined string starts with the first part. */
  lemma JoinStartsWithFirst(parts: seq<string>, sep: string)
    requires parts != []
    ensures parts[0] <= Join(parts, sep)
  {
    if |parts| > 1 {
      assert Join(parts, sep) == parts[0] + (sep + Join(parts[1..], sep));
    }
  }

  lemma {:induction false} JoinSnoc(parts: seq<string>, last: string, sep: string)
    ensures Join(parts + [last], sep) == if parts == [] then last else Join(parts, sep) + sep + last
  {
    if |parts| > 1 {
      assert (parts + [last])[1..] == parts[1..] + [last];
      JoinSnoc(parts[1..], last, sep);
    } else if |parts| == 1 {
      assert (parts + [last])[1..] == [last];
    }
  }

  lemma {:induction false} NonSystemAppend(a: seq<Message>, b: seq<Message>)
    ensures NonSystem(a + b) == NonSystem(a) + NonSystem(b)
  {
    if a != [] {
      assert (a + b)[0] == a[0] && (a + b)[1..] == a[1..] + b;
      NonSystemAppend(a[1..], b);
    } else {
      assert a + b == b;
    }
  }

  /** One more message of the list grows its non-system part by that
      message, unless it is a system message. */
  lemma NonSystemStep(ms: seq<Message>, i: nat)
    requires i < |ms|
    ensures NonSystem(ms[..i + 1]) == NonSystem(ms[..i]) + (if ms[i].role == System then [] else [ms[i]])
  {
    assert ms[..i + 1] == ms[..i] + [ms[i]];
    NonSystemAppend(ms[..i], [ms[i]]);
    assert NonSystem([ms[i]]) == (if ms[i].role == System then [] else [ms[i]]) + NonSystem([]);
  }

  lemma SuffixTransitive(a: seq<Message>, b: seq<Message>, c: seq<Message>)
    requires IsSuffix(a, b) && IsSuffix(b, c)
    ensures IsSuffix(a, c)
  {
    assert c[|c| - |a|..] == c[|c| - |b|..][|b| - |a|..];
  }

  /** Putting the system message in front keeps the last message last. */
  lemma WithSystemLast(system: Option<Message>, list: seq<Message>)
    requires list != []
    ensures var r := WithSystem(system, list); r != [] && r[|r| - 1] == list[|list| - 1]
  {
  }

  /** A non-empty suffix ends with the last element of the list. */
  lemma LastOfSuffix(t: seq<Message>, s: seq<Message>)
    requires IsSuffix(t, s) && t != []
    ensures s != [] && t[|t| - 1] == s[|s| - 1]
  {
    assert t[|t| - 1] == s[|s| - |t|..][|t| - 1];
  }

  lemma NoSystemSuffix(t: seq<Message>, s: seq<Message>)
    requires NoSystem(s) && IsSuffix(t, s)
    ensures NoSystem(t)
  {
    forall i | 0 <= i < |t| ensures t[i].role != System {
      assert t[i] == s[|s| - |t| + i];
    }
  }

  /** Removing the system messages a second time changes nothing. */
  lemma NonSystemIdempotent(ms: seq<Message>)
    ensures NonSystem(NonSystem(ms)) == NonSystem(ms)
  {
    NonSystemKeepsAll(NonSystem(ms));
  }

  /** The system message put in front by `WithSystem` is the one `find` and
      `filter` recover from the result. */
  lemma {:induction false} WithSystemParts(system: Option<Message>, list: seq<Message>)
    requires NoSystem(list)
    requires system.Some? ==> system.value.role == System
    ensures FirstSystem(WithSystem(system, list)) == system
    ensures NonSystem(WithSystem(system, list)) == list
  {
    NonSystemKeepsAll(list);
    if system.Some? {
      assert WithSystem(system, list)[1..] == list;
    }
  }
}
