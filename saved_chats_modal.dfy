/**
 * What the "Saved chats" hover card lists: a placeholder when nothing is
 * saved, otherwise one button per saved chat after dropping every chat
 * whose name and message count equal those of an earlier one.
 */
module SavedChatsModal {
  import opened ChatContext

  /** Chats are told apart by name and number of messages. */
  datatype ChatKey = ChatKey(name: string, messageCount: nat)

  function KeyOf(chat: Chat): ChatKey {
    ChatKey(chat.name, |chat.messages|)
  }

  /** `self.findIndex(c => same key)`: the first index holding the key, or -1. */
  function FindIndex(chats: seq<Chat>, key: ChatKey): (k: int)
    ensures -1 <= k < |chats|
    ensures k >= 0 ==> KeyOf(chats[k]) == key
    ensures forall j :: 0 <= j < |chats| && (k == -1 || j < k) ==> KeyOf(chats[j]) != key
  {
    if |chats| == 0 then -1
    else if KeyOf(chats[0]) == key then 0
    else
      var k := FindIndex(chats[1..], key);
      if k == -1 then -1 else k + 1
  }

  /** The chats from index `i` on that the filter keeps: those at the first index of their key. */
  function KeptFrom(chats: seq<Chat>, i: nat): (kept: seq<Chat>)
    requires i <= |chats|
    ensures |kept| <= |chats| - i
    decreases |chats| - i
  {
    if i == |chats| then []
    else (if FindIndex(chats, KeyOf(chats[i])) == i then [chats[i]] else []) + KeptFrom(chats, i + 1)
  }

  /** `uniqueChats`. */
  function UniqueChats(chats: seq<Chat>): (unique: seq<Chat>)
    ensures |unique| <= |chats|
  {
    KeptFrom(chats, 0)
  }

  /** The first index of a chat's key is at most its own index, and holds the same key. */
  lemma FindIndexOfMember(chats: seq<Chat>, i: nat)
    requires i < |chats|
    ensures 0 <= FindIndex(chats, KeyOf(chats[i])) <= i
    ensures var f := FindIndex(chats, KeyOf(chats[i])); FindIndex(chats, KeyOf(chats[f])) == f
  {
  }

  // ---------------------------------------------------------------------------
  // Properties of the filter
  // ---------------------------------------------------------------------------

  /** `xs` is `ys` with some elements removed, the rest in their original order. */
  predicate IsSubsequence<T(==)>(xs: seq<T>, ys: seq<T>)
    decreases |ys|
  {
    |xs| == 0 || (|ys| > 0 && ((xs[0] == ys[0] && IsSubsequence(xs[1..], ys[1..])) || IsSubsequence(xs, ys[1..])))
  }

  predicate DistinctKeys(chats: seq<Chat>) {
    forall i, j :: 0 <= i < j < |chats| ==> KeyOf(chats[i]) != KeyOf(chats[j])
  }

  function KeysOf(chats: seq<Chat>): set<ChatKey> {
    set j | 0 <= j < |chats| :: KeyOf(chats[j])
  }

  /**
   * Reference definition of the filter: walk the list once, keep a chat
   * when its key has not been seen, and remember the key.
   */
  function FirstOccurrences(chats: seq<Chat>, seen: set<ChatKey>): seq<Chat> {
    if |chats| == 0 then []
    else if KeyOf(chats[0]) in seen then FirstOccurrences(chats[1..], seen)
    else [chats[0]] + FirstOccurrences(chats[1..], seen + {KeyOf(chats[0])})
  }

  /** A chat sits at the first index of its key exactly when no earlier chat has that key. */
  lemma FirstIndexIff(chats: seq<Chat>, i: nat)
    requires i < |chats|
    ensures FindIndex(chats, KeyOf(chats[i])) == i <==> KeyOf(chats[i]) !in KeysOf(chats[..i])
  {
    var f := FindIndex(chats, KeyOf(chats[i]));
    FindIndexOfMember(chats, i);
    if f == i {
      forall j | 0 <= j < i
        ensures KeyOf(chats[..i][j]) != KeyOf(chats[i])
      {
        assert chats[..i][j] == chats[j];
      }
    } else {
      assert chats[..i][f] == chats[f];
    }
  }

  lemma {:induction false} KeptFromIsFirstOccurrences(chats: seq<Chat>, i: nat)
    requires i <= |chats|
    ensures KeptFrom(chats, i) == FirstOccurrences(chats[i..], KeysOf(chats[..i]))
    decreases |chats| - i
  {
    if i < |chats| {
      KeptFromIsFirstOccurrences(chats, i + 1);
      FirstIndexIff(chats, i);
      var key, seen := KeyOf(chats[i]), KeysOf(chats[..i]);
      var rest, tail := chats[i..], chats[i + 1..];
      assert rest[0] == chats[i] && rest[1..] == tail;
      KeysOfSnoc(chats, i);
      var kept := KeptFrom(chats, i + 1);
      assert kept == FirstOccurrences(tail, seen + {key});
      if key in seen {
        assert seen + {key} == seen;
        assert KeptFrom(chats, i) == kept;
        assert FirstOccurrences(rest, seen) == FirstOccurrences(tail, seen);
      } else {
        assert KeptFrom(chats, i) == [chats[i]] + kept;
        assert FirstOccurrences(rest, seen) == [chats[i]] + FirstOccurrences(tail, seen + {key});
      }
    }
  }

  lemma KeysOfSnoc(chats: seq<Chat>, i: nat)
    requires i < |chats|
    ensures KeysOf(chats[..i + 1]) == KeysOf(chats[..i]) + {KeyOf(chats[i])}
  {
    forall key | key in KeysOf(chats[..i + 1])
      ensures key in KeysOf(chats[..i]) + {KeyOf(chats[i])}
    {
      var j :| 0 <= j < i + 1 && KeyOf(chats[..i + 1][j]) == key;
      if j < i {
        assert chats[..i][j] == chats[..i + 1][j];
      }
    }
    forall key | key in KeysOf(chats[..i])
      ensures key in KeysOf(chats[..i + 1])
    {
      var j :| 0 <= j < i && KeyOf(chats[..i][j]) == key;
      assert chats[..i + 1][j] == chats[..i][j];
    }
    assert chats[..i + 1][i] == chats[i];
  }

  /** The index filter and the single-pass reference agree on every list. */
  lemma UniqueChatsIsFirstOccurrences(chats: seq<Chat>)
    ensures UniqueChats(chats) == FirstOccurrences(chats, {})
  {
    KeptFromIsFirstOccurrences(chats, 0);
    assert chats[0..] == chats;
    assert KeysOf(chats[..0]) == {};
  }

  /**
   * The single pass keeps a subsequence of its input with pairwise distinct
   * keys, none of them already seen, and every key it meets is either seen
   * before or kept.
   */
  lemma {:induction false} FirstOccurrencesShape(chats: seq<Chat>, seen: set<ChatKey>)
    ensures IsSubsequence(FirstOccurrences(chats, seen), chats)
    ensures DistinctKeys(FirstOccurrences(chats, seen))
    ensures KeysOf(FirstOccurrences(chats, seen)) !! seen
    ensures KeysOf(chats) <= KeysOf(FirstOccurrences(chats, seen)) + seen
  {
    if |chats| > 0 {
      var key := KeyOf(chats[0]);
      var rest := chats[1..];
      if key in seen {
        FirstOccurrencesShape(rest, seen);
        var kept := FirstOccurrences(chats, seen);
        assert IsSubsequence(kept, chats) by {
          if |kept| > 0 {
            assert IsSubsequence(kept, chats[1..]);
          }
        }
        KeysOfCons(chats);
      } else {
        var more := seen + {key};
        FirstOccurrencesShape(rest, more);
        var tail := FirstOccurrences(rest, more);
        var kept := [chats[0]] + tail;
        assert kept[1..] == tail;
        KeysOfCons(chats);
        KeysOfCons(kept);
        assert DistinctKeys(kept) by {
          forall a, b | 0 <= a < b < |kept|
            ensures KeyOf(kept[a]) != KeyOf(kept[b])
          {
            assert kept[b] == tail[b - 1];
            assert KeyOf(tail[b - 1]) in KeysOf(tail);
            if a > 0 {
              assert kept[a] == tail[a - 1];
            }
          }
        }
      }
    }
  }

  lemma KeysOfCons(chats: seq<Chat>)
    requires |chats| > 0
    ensures KeysOf(chats) == {KeyOf(chats[0])} + KeysOf(chats[1..])
  {
    forall key | key in KeysOf(chats)
      ensures key in {KeyOf(chats[0])} + KeysOf(chats[1..])
    {
      var j :| 0 <= j < |chats| && KeyOf(chats[j]) == key;
      if j > 0 {
        assert chats[1..][j - 1] == chats[j];
      }
    }
    forall key | key in KeysOf(chats[1..])
      ensures key in KeysOf(chats)
    {
      var j :| 0 <= j < |chats[1..]| && KeyOf(chats[1..][j]) == key;
      assert chats[j + 1] == chats[1..][j];
    }
  }

  /** A list whose keys are distinct and unseen passes through the single pass unchanged. */
  lemma {:induction false} FirstOccurrencesOfDistinct(chats: seq<Chat>, seen: set<ChatKey>)
    requires DistinctKeys(chats) && KeysOf(chats) !! seen
    ensures FirstOccurrences(chats, seen) == chats
  {
    if |chats| > 0 {
      KeysOfCons(chats);
      var rest := chats[1..];
      assert KeysOf(rest) !! seen + {KeyOf(chats[0])} by {
        forall j | 0 <= j < |rest|
          ensures KeyOf(rest[j]) != KeyOf(chats[0])
        {
          assert rest[j] == chats[j + 1];
        }
      }
      assert DistinctKeys(rest) by {
        forall a, b | 0 <= a < b < |rest|
          ensures KeyOf(rest[a]) != KeyOf(rest[b])
        {
          assert rest[a] == chats[a + 1] && rest[b] == chats[b + 1];
        }
      }
      FirstOccurrencesOfDistinct(rest, seen + {KeyOf(chats[0])});
    }
  }

  /** The kept chats appear in the saved list, in the same order. */
  lemma UniqueChatsSubsequence(chats: seq<Chat>)
    ensures IsSubsequence(UniqueChats(chats), chats)
  {
    UniqueChatsIsFirstOccurrences(chats);
    FirstOccurrencesShape(chats, {});
  }

  /** No two kept chats share both name and message count. */
  lemma UniqueChatsDistinct(chats: seq<Chat>)
    ensures DistinctKeys(UniqueChats(chats))
  {
    UniqueChatsIsFirstOccurrences(chats);
    FirstOccurrencesShape(chats, {});
  }

  /** Deduplicating a deduplicated list changes nothing. */
  lemma UniqueChatsIdempotent(chats: seq<Chat>)
    ensures UniqueChats(UniqueChats(chats)) == UniqueChats(chats)
  {
    var unique := UniqueChats(chats);
    UniqueChatsDistinct(chats);
    UniqueChatsIsFirstOccurrences(unique);
    FirstOccurrencesOfDistinct(unique, {});
  }

  /** The chat at the first index of a key is kept. */
  lemma {:induction false} KeptFromHas(chats: seq<Chat>, i: nat, j: nat)
    requires i <= j < |chats| && FindIndex(chats, KeyOf(chats[j])) == j
    ensures chats[j] in KeptFrom(chats, i)
    decreases j - i
  {
    var head := if FindIndex(chats, KeyOf(chats[i])) == i then [chats[i]] else [];
    assert KeptFrom(chats, i) == head + KeptFrom(chats, i + 1);
    if i < j {
      KeptFromHas(chats, i + 1, j);
    } else {
      assert head == [chats[j]];
    }
  }

  /** Every saved chat is represented: the first chat with its name and message count is kept. */
  lemma UniqueChatsCovers(chats: seq<Chat>, i: nat)
    requires i < |chats|
    ensures var f := FindIndex(chats, KeyOf(chats[i]));
      0 <= f <= i && KeyOf(chats[f]) == KeyOf(chats[i]) && chats[f] in UniqueChats(chats)
  {
    FindIndexOfMember(chats, i);
    KeptFromHas(chats, 0, FindIndex(chats, KeyOf(chats[i])));
  }

  // ---------------------------------------------------------------------------
  // renderChats
  // ---------------------------------------------------------------------------

  const NoSavedChatsText := "You have no saved chats!"

  /** The content of the hover card: a placeholder, or one button per kept chat. */
  datatype Rendered = Placeholder(text: string) | ChatButtons(chats: seq<Chat>)

  function RenderChats(savedChats: seq<Chat>): (r: Rendered)
    ensures r.Placeholder? <==> |savedChats| == 0
    ensures r.Placeholder? ==> r.text == NoSavedChatsText
    ensures r.ChatButtons? ==> r.chats == UniqueChats(savedChats) && |r.chats| > 0
  {
    if |savedChats| == 0 then Placeholder(NoSavedChatsText)
    else
      assert FindIndex(savedChats, KeyOf(savedChats[0])) == 0;
      ChatButtons(UniqueChats(savedChats))
  }
}
