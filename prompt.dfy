/**
 * The prompt the backend sends to the completion service: an optional
 * starting prompt, then the last `k` messages of the conversation, each as
 * its sender's name, a colon and a line break, its content and a blank line.
 */
module Prompt {
  import opened Messages

  function Min(a: nat, b: nat): nat
  {
    if a <= b then a else b
  }

  /** The starting prompt and one blank line, or nothing when it is empty. */
  function Prefix(startingPrompt: string): string
  {
    if startingPrompt == [] then [] else startingPrompt + "\n\n"
  }

  /** One message as it appears in the prompt. */
  function Entry(m: Message): string
  {
    m.sender + ":\n" + m.content + "\n\n"
  }

  /** The entries of `ms`, in order. */
  function Entries(ms: seq<Message>): string
  {
    if ms == [] then [] else Entries(ms[..|ms| - 1]) + Entry(ms[|ms| - 1])
  }

  /**
   * What is left of the message iterator after the source's skipping loop:
   * the first message is dropped for as long as more than `k` remain.
   */
  function Skip(ms: seq<Message>, k: nat): seq<Message>
    decreases |ms|
  {
    if |ms| > k then Skip(ms[1..], k) else ms
  }

  /** The reference definition of the prompt. */
  function WindowedPrompt(startingPrompt: string, ms: seq<Message>, k: nat): string
  {
    Prefix(startingPrompt) + Entries(Skip(ms, k))
  }

  /** The skipping loop keeps exactly the last min(n, k) messages, in order. */
  lemma {:induction false} SkipKeepsLastMessages(ms: seq<Message>, k: nat)
    ensures |Skip(ms, k)| == Min(|ms|, k)
    ensures Skip(ms, k) == ms[|ms| - Min(|ms|, k)..]
    decreases |ms|
  {
    if |ms| > k {
      var tail := ms[1..];
      SkipKeepsLastMessages(tail, k);
      calc {
        Skip(ms, k);
        Skip(tail, k);
        tail[|tail| - k..];
        { SuffixOfTail(ms, k); }
        ms[|ms| - k..];
      }
    } else {
      assert ms[0..] == ms;
    }
  }

  lemma SuffixOfTail(ms: seq<Message>, k: nat)
    requires k < |ms|
    ensures ms[1..][|ms| - 1 - k..] == ms[|ms| - k..]
  {
  }

  /** The entries of two runs of messages are the two runs of entries. */
  lemma {:induction false} EntriesAppend(a: seq<Message>, b: seq<Message>)
    ensures Entries(a + b) == Entries(a) + Entries(b)
    decreases |b|
  {
    if b == [] {
      assert a + b == a;
    } else {
      var last := |b| - 1;
      var ab := a + b;
      assert ab != [];
      assert ab[..|ab| - 1] == a + b[..last];
      assert ab[|ab| - 1] == b[last];
      calc {
        Entries(ab);
        Entries(a + b[..last]) + Entry(b[last]);
        { EntriesAppend(a, b[..last]); }
        (Entries(a) + Entries(b[..last])) + Entry(b[last]);
        Entries(a) + (Entries(b[..last]) + Entry(b[last]));
        Entries(a) + Entries(b);
      }
    }
  }

  /** Extending a slice by one message extends its entries by that message's entry. */
  lemma EntriesExtend(ms: seq<Message>, lo: nat, hi: nat)
    requires lo <= hi < |ms|
    ensures Entries(ms[lo..hi + 1]) == Entries(ms[lo..hi]) + Entry(ms[hi])
  {
    assert ms[lo..hi + 1][..hi - lo] == ms[lo..hi];
  }

  /** Every message contributes its own entry, in the order of the conversation. */
  lemma {:induction false} EntriesAt(ms: seq<Message>, i: nat)
    requires i < |ms|
    ensures Entries(ms) == Entries(ms[..i]) + Entry(ms[i]) + Entries(ms[i + 1..])
  {
    assert ms == ms[..i] + [ms[i]] + ms[i + 1..];
    EntriesAppend(ms[..i] + [ms[i]], ms[i + 1..]);
    EntriesAppend(ms[..i], [ms[i]]);
    assert [ms[i]][..0] == [];
  }

  /**
   * The prompt is the prefix followed by the entries of exactly the last
   * min(n, k) messages. A message outside the window contributes nothing.
   */
  lemma WindowedPromptShape(startingPrompt: string, ms: seq<Message>, k: nat)
    ensures WindowedPrompt(startingPrompt, ms, k)
            == Prefix(startingPrompt) + Entries(ms[|ms| - Min(|ms|, k)..])
    ensures startingPrompt == [] ==> WindowedPrompt(startingPrompt, ms, k) == Entries(ms[|ms| - Min(|ms|, k)..])
    ensures startingPrompt != [] ==>
              WindowedPrompt(startingPrompt, ms, k)
              == startingPrompt + "\n\n" + Entries(ms[|ms| - Min(|ms|, k)..])
  {
    SkipKeepsLastMessages(ms, k);
  }

  /** With a window of zero messages only the prefix remains. */
  lemma ZeroWindowKeepsOnlyPrefix(startingPrompt: string, ms: seq<Message>)
    ensures WindowedPrompt(startingPrompt, ms, 0) == Prefix(startingPrompt)
  {
    SkipKeepsLastMessages(ms, 0);
  }

  /**
   * Growing a conversation past the window does not change the prompt's
   * dependence on older messages: the prompt of `older + recent` with a
   * window of `|recent|` is the prompt of `recent` alone.
   */
  lemma OlderMessagesAreForgotten(startingPrompt: string, older: seq<Message>, recent: seq<Message>)
    ensures WindowedPrompt(startingPrompt, older + recent, |recent|) == WindowedPrompt(startingPrompt, recent, |recent|)
  {
    SkipKeepsLastMessages(older + recent, |recent|);
    SkipKeepsLastMessages(recent, |recent|);
    assert (older + recent)[|older|..] == recent;
  }

  /** One turn of the skipping loop leaves what the skipping still to come keeps unchanged. */
  lemma SkipStep(ms: seq<Message>, first: nat, k: nat)
    requires first < |ms| && |ms| - first > k
    ensures Skip(ms[first + 1..], k) == Skip(ms[first..], k)
  {
    assert ms[first..][1..] == ms[first + 1..];
  }

  /** The prompt before any message: the starting prompt and a blank line, unless it is empty. */
  method StartPrompt(startingPrompt: string) returns (prompt: string)
    ensures prompt == Prefix(startingPrompt)
  {
    prompt := [];
    if startingPrompt != [] {
      prompt := prompt + startingPrompt;
      prompt := prompt + "\n\n";
    }
  }

  /** `create_prompt_from_messages`: skip to the window, then append entry by entry. */
  method CreatePromptFromMessages(startingPrompt: string, messages: seq<Message>, promptContextLength: nat)
    returns (prompt: string)
    ensures prompt == WindowedPrompt(startingPrompt, messages, promptContextLength)
  {
    var first := 0;
    while |messages| - first > promptContextLength
      invariant 0 <= first <= |messages|
      invariant Skip(messages[first..], promptContextLength) == Skip(messages, promptContextLength)
      decreases |messages| - first
    {
      SkipStep(messages, first, promptContextLength);
      first := first + 1;
    }
    var rest := messages[first..];
    assert Skip(rest, promptContextLength) == rest;

    prompt := StartPrompt(startingPrompt);
    ghost var prefix := prompt;

    for i := 0 to |rest|
      invariant prompt == prefix + Entries(rest[..i])
    {
      EntriesExtend(rest, 0, i);
      assert rest[0..i + 1] == rest[..i + 1] && rest[0..i] == rest[..i];
      prompt := prompt + Entry(rest[i]);
    }
    assert rest[..|rest|] == rest;
  }
}
