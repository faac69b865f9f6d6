/** The chat assistant widget: its open/closed state, the once-only build of
    the widget, and the conversation history sent with each question, kept
    to the last twenty entries. */
module AiChat {
  import opened Wrappers
  import Strings

  datatype Role = User | Assistant

  datatype Entry = Entry(role: Role, content: string)

  /** The longest history kept. */
  const HistoryLimit: nat := 20

  /** The history after a successful exchange: the question and the answer
      appended, then only the last twenty entries if it grew past that. */
  function Appended(history: seq<Entry>, message: string, response: string): (r: seq<Entry>)
    ensures |history| + 2 <= HistoryLimit ==> r == history + [Entry(User, message), Entry(Assistant, response)]
    ensures |history| + 2 > HistoryLimit ==> |r| == HistoryLimit
    ensures |r| <= HistoryLimit
  {
    var h := history + [Entry(User, message), Entry(Assistant, response)];
    if |h| > HistoryLimit then h[|h| - HistoryLimit..] else h
  }

  /** A history of whole exchanges: a question, then its answer, repeated. */
  ghost predicate Paired(h: seq<Entry>)
  {
    |h| % 2 == 0 && forall i :: 0 <= i < |h| ==> h[i].role == (if i % 2 == 0 then User else Assistant)
  }

  /** After an exchange the history ends with that question and answer, is
      a suffix of the old history followed by them, and stays a run of whole
      exchanges when it was one. */
  lemma AppendedShape(history: seq<Entry>, message: string, response: string)
    ensures var r := Appended(history, message, response);
      var h := history + [Entry(User, message), Entry(Assistant, response)];
      |r| >= 2
      && r[|r| - 2..] == [Entry(User, message), Entry(Assistant, response)]
      && r == h[|h| - |r|..]
      && (|history| + 2 <= HistoryLimit ==> r == h)
  {
    var r := Appended(history, message, response);
    var h := history + [Entry(User, message), Entry(Assistant, response)];
    assert h[|h| - |h|..] == h;
  }

  lemma AppendedKeepsPairs(history: seq<Entry>, message: string, response: string)
    requires Paired(history)
    ensures Paired(Appended(history, message, response))
  {
    var h := history + [Entry(User, message), Entry(Assistant, response)];
    assert Paired(h) by {
      forall i | 0 <= i < |h|
        ensures h[i].role == (if i % 2 == 0 then User else Assistant)
      {
        if i >= |history| {
          assert i == |history| || i == |history| + 1;
        }
      }
    }
    if |h| > HistoryLimit {
      var d := |h| - HistoryLimit;
      assert d % 2 == 0;
      var r := h[d..];
      forall i | 0 <= i < |r|
        ensures r[i].role == (if i % 2 == 0 then User else Assistant)
      {
        assert r[i] == h[d + i];
        assert (d + i) % 2 == i % 2;
      }
    }
  }

  class Chat {
    var isOpen: bool
    var history: seq<Entry>
    /** Whether the widget has been built (`container` is set). */
    var built: bool

    constructor ()
      ensures !isOpen && history == [] && !built
    {
      isOpen := false;
      history := [];
      built := false;
    }

    /** `render()`: build the widget only the first time. */
    method Render() returns (didBuild: bool)
      modifies this
      ensures didBuild <==> !old(built)
      ensures built
      ensures isOpen == old(isOpen) && history == old(history)
    {
      if built {
        return false;
      }
      built := true;
      didBuild := true;
    }

    /** `toggle()`: flip the open state. */
    method Toggle()
      modifies this
      ensures isOpen == !old(isOpen)
      ensures history == old(history) && built == old(built)
    {
      isOpen := !isOpen;
    }

    /** `open()`: toggle only a closed widget, so an open one is left as it
        is. */
    method Open()
      modifies this
      ensures isOpen
      ensures history == old(history) && built == old(built)
    {
      if !isOpen {
        Toggle();
      }
    }

    /** `close()`: toggle only an open widget. */
    method Close()
      modifies this
      ensures !isOpen
      ensures history == old(history) && built == old(built)
    {
      if isOpen {
        Toggle();
      }
    }

    /** `handleSubmit`: a message that is empty once trimmed is ignored.
        Otherwise the trimmed message is sent with the history as it stands;
        `reply` is the answer, or `None` when the request fails, which leaves
        the history unchanged. The request sent is returned. */
    method HandleSubmit(input: string, reply: Option<string>) returns (request: Option<(string, seq<Entry>)>)
      modifies this
      ensures Strings.Trim(input) == "" ==> request == None && history == old(history)
      ensures Strings.Trim(input) != "" ==> request == Some((Strings.Trim(input), old(history)))
      ensures Strings.Trim(input) != "" && reply.Some? ==>
        history == Appended(old(history), Strings.Trim(input), reply.value)
      ensures reply.None? ==> history == old(history)
      ensures isOpen == old(isOpen) && built == old(built)
    {
      var message := Strings.Trim(input);
      if message == "" {
        return None;
      }
      request := Some((message, history));
      if reply.Some? {
        var h := history + [Entry(User, message), Entry(Assistant, reply.value)];
        if |h| > 20 {
          h := h[|h| - 20..];
        }
        history := h;
      }
    }

    /** `clearHistory()`. */
    method ClearHistory()
      modifies this
      ensures history == []
      ensures isOpen == old(isOpen) && built == old(built)
    {
      history := [];
    }
  }
}
