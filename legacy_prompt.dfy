/**
 * The older prompt serialiser: an optional starting prompt, then every
 * message with its sender and timestamp, with no window.
 */
module LegacyPrompt {
  import opened Options
  import opened Messages

  /** RFC 2822 rendering of a timestamp; the formatting itself is not modelled. */
  type Rfc2822 = int -> string

  /** A starting prompt that is set, even to the empty string, is followed by one newline. */
  function Header(startingPrompt: Option<string>): string
  {
    if startingPrompt.Some? then startingPrompt.value + "\n" else ""
  }

  /** One message: "sender: timestamp", newline, content, newline. */
  function Entry(rfc2822: Rfc2822, m: Message): string
  {
    m.sender + ": " + rfc2822(m.timestamp) + "\n" + m.content + "\n"
  }

  /** Every message's entry, in order. */
  function Entries(rfc2822: Rfc2822, ms: seq<Message>): string
  {
    if ms == [] then "" else Entries(rfc2822, ms[..|ms| - 1]) + Entry(rfc2822, ms[|ms| - 1])
  }

  /** The whole prompt. */
  function PromptOf(rfc2822: Rfc2822, startingPrompt: Option<string>, ms: seq<Message>): string
  {
    Header(startingPrompt) + Entries(rfc2822, ms)
  }

  /** The last message of `a + b`, for a non-empty `b`, is the last message of `b`. */
  lemma EntriesOfAppendUnfold(rfc2822: Rfc2822, a: seq<Message>, b: seq<Message>)
    requires b != []
    ensures Entries(rfc2822, a + b) == Entries(rfc2822, a + b[..|b| - 1]) + Entry(rfc2822, b[|b| - 1])
  {
    var ab := a + b;
    assert ab[..|ab| - 1] == a + b[..|b| - 1];
  }

  /** Entries of a concatenation are the concatenation of the entries. */
  lemma {:induction false} EntriesAppend(rfc2822: Rfc2822, a: seq<Message>, b: seq<Message>)
    ensures Entries(rfc2822, a + b) == Entries(rfc2822, a) + Entries(rfc2822, b)
    decreases |b|
  {
    if b == [] {
      assert a + b == a;
    } else {
      var init, last := b[..|b| - 1], b[|b| - 1];
      EntriesOfAppendUnfold(rfc2822, a, b);
      EntriesAppend(rfc2822, a, init);
      Regroup3(Entries(rfc2822, a), Entries(rfc2822, init), Entry(rfc2822, last));
    }
  }

  lemma Regroup3(x: string, y: string, z: string)
    ensures (x + y) + z == x + (y + z)
  {
  }

  /** Message `i` contributes its own entry, between those of the messages around it. */
  lemma {:induction false} EntriesAt(rfc2822: Rfc2822, ms: seq<Message>, i: nat)
    requires i < |ms|
    ensures Entries(rfc2822, ms) ==
      Entries(rfc2822, ms[..i]) + Entry(rfc2822, ms[i]) + Entries(rfc2822, ms[i + 1..])
  {
    assert ms == ms[..i] + [ms[i]] + ms[i + 1..];
    EntriesAppend(rfc2822, ms[..i] + [ms[i]], ms[i + 1..]);
    EntriesAppend(rfc2822, ms[..i], [ms[i]]);
    assert [ms[i]][..0] == [];
  }

  lemma Regroup(h: string, a: string, e: string, b: string)
    ensures h + (a + e + b) == h + a + e + b
  {
  }

  /**
   * No message is dropped: the prompt is the header followed by the entries
   * of the messages before `i`, the entry of message `i`, and the entries
   * of the messages after it.
   */
  lemma EveryMessageIsIncluded(rfc2822: Rfc2822, startingPrompt: Option<string>, ms: seq<Message>, i: nat)
    requires i < |ms|
    ensures PromptOf(rfc2822, startingPrompt, ms) ==
      Header(startingPrompt) + Entries(rfc2822, ms[..i]) + Entry(rfc2822, ms[i]) + Entries(rfc2822, ms[i + 1..])
  {
    EntriesAt(rfc2822, ms, i);
    Regroup(Header(startingPrompt), Entries(rfc2822, ms[..i]), Entry(rfc2822, ms[i]), Entries(rfc2822, ms[i + 1..]));
  }

  /** With no starting prompt there is no header; with one there is exactly it and a newline. */
  lemma HeaderShape(rfc2822: Rfc2822, startingPrompt: Option<string>, ms: seq<Message>)
    ensures startingPrompt.None? ==> PromptOf(rfc2822, startingPrompt, ms) == Entries(rfc2822, ms)
    ensures startingPrompt == Some("") ==> PromptOf(rfc2822, startingPrompt, ms) == "\n" + Entries(rfc2822, ms)
    ensures startingPrompt.Some? ==>
      PromptOf(rfc2822, startingPrompt, ms)[..|startingPrompt.value| + 1] == startingPrompt.value + "\n"
  {
  }

  /** The prompt before any message: the starting prompt and a newline, when one is set. */
  method StartPrompt(startingPrompt: Option<string>) returns (prompt: string)
    ensures prompt == Header(startingPrompt)
  {
    prompt := "";
    if startingPrompt.Some? {
      prompt := prompt + startingPrompt.value;
      prompt := prompt + "\n";
    }
  }

  /** `create_prompt_from_messages`. */
  method CreatePromptFromMessages(rfc2822: Rfc2822, startingPrompt: Option<string>, messages: seq<Message>)
    returns (prompt: string)
    ensures prompt == PromptOf(rfc2822, startingPrompt, messages)
  {
    prompt := StartPrompt(startingPrompt);
    for i := 0 to |messages|
      invariant prompt == Header(startingPrompt) + Entries(rfc2822, messages[..i])
    {
      var m := messages[i];
      assert messages[..i + 1][..i] == messages[..i];
      prompt := prompt + (m.sender + ": " + rfc2822(m.timestamp) + "\n" + m.content + "\n");
    }
    assert messages[..|messages|] == messages;
  }
}
