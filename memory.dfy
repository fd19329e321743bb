/** The placeholder agent memory (`AgentMemory` in agents/memory.py): an append-only history. */
module Memory {
  import opened Slices

  /** One history entry, `{"role": role, "content": content}`. */
  datatype Entry = Entry(role: string, content: string)

  class AgentMemory {
    var history: seq<Entry>

    /** `AgentMemory(history=...)`; the dataclass default is the empty list. */
    constructor (history: seq<Entry> := [])
      ensures this.history == history
    {
      this.history := history;
    }

    /** `add(role, content)`: appends exactly one entry at the end. */
    method Add(role: string, content: string)
      modifies this
      ensures history == old(history) + [Entry(role, content)]
      ensures |history| == |old(history)| + 1 && history[..|old(history)|] == old(history)
    {
      history := history + [Entry(role, content)];
    }

    /**
     * `last_n(n=10)`, that is `history[-n:]`: for n >= 1 the last
     * min(n, len) entries in order; for n == 0 the whole history, since
     * `-0 == 0`; for negative n the history without its first -n entries.
     */
    function LastN(n: int := 10): (r: seq<Entry>)
      reads this
      ensures |r| <= |history| && r == history[|history| - |r|..]
      ensures n >= 1 ==> |r| == Min(n, |history|)
      ensures n == 0 ==> r == history
      ensures n < 0 ==> |r| == |history| - Min(-n, |history|)
    {
      SliceFrom(history, -n)
    }
  }
}
