/** Files as the daemon sees them.  Every append is all-or-nothing, every replace
    is a rename; `outcomes` lists what the environment will do with the next
    operations (an exhausted list means success).  An operation that does not
    succeed also stands for a crash just before it: both leave the file as it was
    and abandon what follows.  A replace can also fail after its rename, when the
    directory sync does. */
module Storage {

  function NextOk(outcomes: seq<bool>): bool {
    outcomes == [] || outcomes[0]
  }

  function Later<T>(outcomes: seq<T>): seq<T> {
    if outcomes == [] then [] else outcomes[1..]
  }

  /** What an atomic replace did: the replace, nothing, or the replace followed by
      an error. */
  datatype ReplaceOutcome = Replaced | Refused | ReplacedThenRaised

  function NextReplace(outcomes: seq<ReplaceOutcome>): ReplaceOutcome {
    if outcomes == [] then Replaced else outcomes[0]
  }

  datatype Log<T> = Log(rows: seq<T>, outcomes: seq<bool>) {
    function Append(row: T): Log<T> {
      Log(if NextOk(outcomes) then rows + [row] else rows, Later(outcomes))
    }
  }

  datatype Cell<T> = Cell(content: T, outcomes: seq<ReplaceOutcome>) {
    function Replace(next: T): Cell<T> {
      Cell(if NextReplace(outcomes) == Refused then content else next, Later(outcomes))
    }
  }

  /** An append-only file. */
  class AppendFile<T> {
    var rows: seq<T>
    var outcomes: seq<bool>

    constructor (rows: seq<T>, outcomes: seq<bool>)
      ensures State() == Log(rows, outcomes)
    {
      this.rows, this.outcomes := rows, outcomes;
    }

    function State(): Log<T>
      reads this
    {
      Log(rows, outcomes)
    }

    method Append(row: T) returns (ok: bool)
      modifies this
      ensures ok == NextOk(old(outcomes))
      ensures State() == old(State()).Append(row)
    {
      ok := NextOk(outcomes);
      if ok {
        rows := rows + [row];
      }
      outcomes := Later(outcomes);
    }
  }

  /** A file replaced as a whole by an atomic rename. */
  class ReplaceFile<T> {
    var content: T
    var outcomes: seq<ReplaceOutcome>

    constructor (content: T, outcomes: seq<ReplaceOutcome>)
      ensures State() == Cell(content, outcomes)
    {
      this.content, this.outcomes := content, outcomes;
    }

    function State(): Cell<T>
      reads this
    {
      Cell(content, outcomes)
    }

    /** Replace the file; `ok` is false when the operation raised. */
    method Replace(next: T) returns (ok: bool)
      modifies this
      ensures ok <==> NextReplace(old(outcomes)) == Replaced
      ensures State() == old(State()).Replace(next)
    {
      ok := NextReplace(outcomes) == Replaced;
      if NextReplace(outcomes) != Refused {
        content := next;
      }
      outcomes := Later(outcomes);
    }
  }
}
