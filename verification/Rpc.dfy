/** The six message kinds and the term check (rsm/rpc.py). */
module Rpc {
  import opened Basics
  import opened Logs

  datatype RawMessage =
    | RequestVote(sender: Name, recipient: Name, term: Term, lastIndex: int, lastTerm: int, preVote: bool)
    | Vote(sender: Name, recipient: Name, term: Term, granted: bool, preVote: bool)
    | Append(sender: Name, recipient: Name, term: Term, previousIndex: int, previousTerm: int,
             entries: seq<Entry>, commitIndex: int)
    | Appended(sender: Name, recipient: Name, term: Term, success: bool, matchIndex: int,
               conflictTerm: int, conflictIndex: int)
    | InstallSnapshot(sender: Name, recipient: Name, term: Term, snapIndex: nat, snapTerm: nat,
                      state: map<string, Value>, members: seq<Name>)
    | Installed(sender: Name, recipient: Name, term: Term, upTo: int)
  {
    /** The highest index an append would leave its follower holding. */
    function AppendEnd(): int
      requires Append?
    {
      if entries == [] then previousIndex else entries[|entries| - 1].index
    }

    predicate Asking() { (RequestVote? || Vote?) && preVote }
  }

  /** The constructor refuses a message from a node to itself. */
  type Message = m: RawMessage | m.sender != m.recipient
    witness Installed(Name(0), Name(1), 1, 0)

  datatype TermState = Stale | Current | Ahead

  function TermCheck(ownTerm: Term, message: Message): TermState {
    if message.term < ownTerm then Stale
    else if message.term > ownTerm then Ahead
    else Current
  }
}
