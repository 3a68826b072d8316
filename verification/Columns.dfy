/** The board's columns, in workflow order, and the status texts that name them. */
module Columns {
  import opened Options

  datatype Column = Backlog | Queue | InProgress | Review | HumanReview | Done

  /** The status text of a column. */
  function ColumnName(c: Column): string {
    match c
    case Backlog => "backlog"
    case Queue => "queue"
    case InProgress => "in_progress"
    case Review => "review"
    case HumanReview => "human_review"
    case Done => "done"
  }

  function ParseColumn(s: string): (r: Option<Column>)
    ensures r.Some? ==> ColumnName(r.value) == s
  {
    if s == "backlog" then Some(Backlog)
    else if s == "queue" then Some(Queue)
    else if s == "in_progress" then Some(InProgress)
    else if s == "review" then Some(Review)
    else if s == "human_review" then Some(HumanReview)
    else if s == "done" then Some(Done)
    else None
  }

  /** Exactly the status texts are read, each as its own column. */
  lemma {:induction false} ParseColumnIff(s: string, c: Column)
    ensures ParseColumn(s) == Some(c) <==> s == ColumnName(c)
  {
    assert |"backlog"| == 7 && |"queue"| == 5 && |"in_progress"| == 11 && |"review"| == 6 && |"human_review"| == 12
           && |"done"| == 4;
  }
}
