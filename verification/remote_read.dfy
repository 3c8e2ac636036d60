/** Reading the output of a finished remote command page by page. */
module RemoteRead {
  import opened Options

  const PAGE := 4096

  datatype Answer = OutsideOutput | Page(stdout: string, stderr: string, next: Option<nat>)

  function Longer(out: string, err: string): nat { if |out| < |err| then |err| else |out| }

  // Slicing that stops at the end of the text.
  function Slice(s: string, from: nat, to: nat): string {
    if from >= |s| || to <= from then [] else if to >= |s| then s[from..] else s[from..to]
  }

  function Read(out: string, err: string, offset: nat): Answer {
    if offset > Longer(out, err) then OutsideOutput
    else
      var end := offset + PAGE;
      Page(Slice(out, offset, end), Slice(err, offset, end), if end < Longer(out, err) then Some(end) else None)
  }

  // The page is what the text holds in the 4096 places from the offset on.
  predicate PageOf(text: string, offset: nat, page: string) {
    && (forall k: nat | k < |page| :: offset + k < |text| && page[k] == text[offset + k])
    && |page| <= 4096 && (|page| < 4096 ==> offset + |page| >= |text|)
  }

  /** An offset behind both texts is refused; any other yields the page of each text, and the next offset
      exactly when one of them goes on behind the page. */
  lemma ReadsExactly(out: string, err: string, offset: nat)
    ensures var page := Read(out, err, offset);
            if offset > |out| && offset > |err| then page == OutsideOutput
            else
              && page.Page? && PageOf(out, offset, page.stdout) && PageOf(err, offset, page.stderr)
              && page.next == if offset + 4096 < |out| || offset + 4096 < |err| then Some(offset + 4096) else None
  {}

  // What a reader collects by following `next` from an offset.
  function Follow(out: string, err: string, offset: nat): (string, string)
    requires offset <= Longer(out, err)
    decreases Longer(out, err) - offset
  {
    var page := Read(out, err, offset);
    if page.next.None? then (page.stdout, page.stderr)
    else
      var rest := Follow(out, err, page.next.value);
      (page.stdout + rest.0, page.stderr + rest.1)
  }

  lemma SliceJoins(s: string, from: nat, mid: nat, to: nat)
    requires from <= mid <= to
    ensures Slice(s, from, mid) + Slice(s, mid, to) == Slice(s, from, to)
  {}

  /** Following the pages from any offset yields exactly the rest of both streams. */
  lemma {:induction false} PagesSpellTheOutput(out: string, err: string, offset: nat)
    requires offset <= Longer(out, err)
    ensures Follow(out, err, offset) == (Slice(out, offset, |out| + |err|), Slice(err, offset, |out| + |err|))
    decreases Longer(out, err) - offset
  {
    var end := offset + PAGE;
    if end < Longer(out, err) {
      PagesSpellTheOutput(out, err, end);
      SliceJoins(out, offset, end, |out| + |err|);
      SliceJoins(err, offset, end, |out| + |err|);
    }
  }

  /** From the start, the whole of both. */
  lemma WholeOutput(out: string, err: string)
    ensures Follow(out, err, 0) == (out, err)
  {
    PagesSpellTheOutput(out, err, 0);
    assert Slice(out, 0, |out| + |err|) == out && Slice(err, 0, |out| + |err|) == err;
  }
}
