/** The conversation history handed to the completion service: the text messages of the
    log with a non-empty text, turned into (role, text) pairs, of which the last ten are kept. */
module History {
  import opened Types

  datatype Role = UserRole | ModelRole

  datatype Entry = Entry(role: Role, text: Body)

  /** How many entries of context are kept. */
  const MaxHistory: nat := 10

  /** The filter: a TEXT message whose text is present and truthy, that is not empty
      (a text of spaces passes). */
  predicate InHistory(m: Message) {
    m.kind == Text && m.text.Some? && !m.text.value.IsEmpty()
  }

  /** The messages of `log` that pass the filter, in log order. */
  function TextMessages(log: seq<Message>): (r: seq<Message>)
    ensures |r| <= |log|
    ensures forall m :: m in r ==> InHistory(m) && m in log
    decreases |log|
  {
    if log == [] then []
    else (if InHistory(log[0]) then [log[0]] else []) + TextMessages(log[1..])
  }

  /** The role of a message's author: `user` for the user, `model` for the bot. */
  function ToEntry(m: Message): Entry
    requires m.text.Some?
  {
    Entry(if m.sender == User then UserRole else ModelRole, m.text.value)
  }

  /** The map step of the pipeline. */
  function Entries(ms: seq<Message>): seq<Entry>
    requires forall m :: m in ms ==> m.text.Some?
  {
    seq(|ms|, i requires 0 <= i < |ms| => ToEntry(ms[i]))
  }

  /** `slice(-n)`: the last `n` elements, or all of them when there are fewer. */
  function Last<T>(s: seq<T>, n: nat): seq<T> {
    if |s| <= n then s else s[|s| - n..]
  }

  /** The history built from the log: filter, map, then keep the last ten. */
  function BuildHistory(log: seq<Message>): seq<Entry> {
    Last(Entries(TextMessages(log)), MaxHistory)
  }

  /** The filter distributes over concatenation, so it keeps log order. */
  lemma {:induction false} TextMessagesAppend(a: seq<Message>, b: seq<Message>)
    ensures TextMessages(a + b) == TextMessages(a) + TextMessages(b)
    decreases |a|
  {
    if a == [] {
      assert a + b == b;
    } else {
      assert (a + b)[1..] == a[1..] + b;
      TextMessagesAppend(a[1..], b);
    }
  }

  /** Appending one message extends the filtered list by that message exactly when it
      passes the filter. */
  lemma TextMessagesSnoc(log: seq<Message>, m: Message)
    ensures TextMessages(log + [m]) == if InHistory(m) then TextMessages(log) + [m] else TextMessages(log)
  {
    TextMessagesAppend(log, [m]);
    assert [m][1..] == [];
  }

  /** A list of messages none of which passes the filter contributes nothing. */
  lemma {:induction false} TextMessagesNone(extra: seq<Message>)
    requires forall k :: 0 <= k < |extra| ==> !InHistory(extra[k])
    ensures TextMessages(extra) == []
    decreases |extra|
  {
    if extra != [] {
      TextMessagesNone(extra[1..]);
    }
  }

  /** Appending messages that do not pass the filter (product cards, empty texts) leaves
      the filtered list, and so the history, as it was. */
  lemma TextMessagesSkip(log: seq<Message>, extra: seq<Message>)
    requires forall k :: 0 <= k < |extra| ==> !InHistory(extra[k])
    ensures TextMessages(log + extra) == TextMessages(log)
    ensures BuildHistory(log + extra) == BuildHistory(log)
  {
    TextMessagesAppend(log, extra);
    TextMessagesNone(extra);
    assert TextMessages(log) + [] == TextMessages(log);
  }

  /** The history has at most ten entries and is the suffix of the filtered, mapped list:
      entry `k` comes from the filtered message at the same place from the end, with role
      `user` exactly for user messages and that message's text. */
  lemma HistoryShape(log: seq<Message>)
    ensures var tm := TextMessages(log);
            var h := BuildHistory(log);
            |h| <= MaxHistory &&
            |h| == (if |tm| <= MaxHistory then |tm| else MaxHistory) &&
            forall k :: 0 <= k < |h| ==>
              var m := tm[|tm| - |h| + k];
              m.kind == Text && m.text.Some? && h[k].text == m.text.value &&
              (h[k].role == UserRole <==> m.sender == User)
  {
    var tm := TextMessages(log);
    forall k | 0 <= k < |tm|
      ensures tm[k].kind == Text && tm[k].text.Some?
    {
      assert tm[k] in tm;
    }
  }
}
