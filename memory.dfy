/**
 * The conversation memory of the assistant: question/answer turns and the
 * "last three exchanges" context text built from them.
 */
module Memory {
  import opened Text

  /** One `{"question": q, "answer": a}` entry of the conversation history. */
  datatype Turn = Turn(question: string, answer: string)

  /** How many of the most recent turns the context text shows. */
  const ContextTurns: nat := 3

  /** `history[-3:]`: the most recent turns, at most three of them, in insertion order. */
  function RecentTurns(history: seq<Turn>): (recent: seq<Turn>)
    ensures |recent| == if |history| < ContextTurns then |history| else ContextTurns
    ensures recent == history[|history| - |recent|..]
  {
    if |history| <= ContextTurns then history else history[|history| - ContextTurns..]
  }

  /** One turn as the text `Q: <question>\nA: <answer>`. */
  function RenderTurn(t: Turn): string
  {
    "Q: " + t.question + "\nA: " + t.answer
  }

  function RenderTurns(turns: seq<Turn>): seq<string>
  {
    seq(|turns|, i requires 0 <= i < |turns| => RenderTurn(turns[i]))
  }

  /**
   * The history context text: empty for an empty history, else the recent
   * turns joined by newlines. It is empty exactly when there is no history,
   * and otherwise ends with the newest turn.
   */
  function HistoryContext(history: seq<Turn>): (text: string)
    ensures text == "" <==> history == []
    ensures history != [] ==>
              var newest := RenderTurn(history[|history| - 1]);
              |newest| <= |text| && text[|text| - |newest|..] == newest
  {
    if |history| == 0 then ""
    else
      var recent := RecentTurns(history);
      var parts := RenderTurns(recent);
      assert recent[|recent| - 1] == history[|history| - 1];
      JoinEndsWithLast("\n", parts);
      Join("\n", parts)
  }

  /** Turns older than the three most recent ones never reach the context text. */
  lemma OlderTurnsIgnored(older: seq<Turn>, recent: seq<Turn>)
    requires |recent| >= ContextTurns
    ensures HistoryContext(older + recent) == HistoryContext(recent)
  {
    var all := older + recent;
    assert all[|all| - ContextTurns..] == recent[|recent| - ContextTurns..];
    assert RecentTurns(all) == RecentTurns(recent);
    assert all != [] && recent != [];
  }

  /**
   * After a turn is appended, the context text is the context of the (at most two)
   * turns before it, a newline, then the new turn: the newest turn comes last.
   */
  lemma HistoryContextAppend(history: seq<Turn>, t: Turn)
    ensures var kept := if |history| < ContextTurns - 1 then |history| else ContextTurns - 1;
      HistoryContext(history + [t]) ==
        if kept == 0 then RenderTurn(t)
        else HistoryContext(history[|history| - kept..]) + "\n" + RenderTurn(t)
  {
    var kept := if |history| < ContextTurns - 1 then |history| else ContextTurns - 1;
    var before := history[|history| - kept..];
    var all := history + [t];
    assert RecentTurns(all) == before + [t];
    assert RenderTurns(before + [t]) == RenderTurns(before) + [RenderTurn(t)];
    if kept == 0 {
      assert RenderTurns(before + [t]) == [RenderTurn(t)];
    } else {
      assert RecentTurns(before) == before;
      JoinSnoc("\n", RenderTurns(before), RenderTurn(t));
    }
  }
}
