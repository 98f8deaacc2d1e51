/** The pages of a folder that the reader has left behind: a bounded stack for going back. */
module Pages {
  import opened Outcomes
  import FileSystem

  const MAX_HISTORY := 32

  type Cursor = nat

  /** A page of a folder: the one after a cursor, or the first. */
  datatype Page = Page(folder: seq<FileSystem.Name>, after: Option<Cursor>)

  function Last(pages: seq<Page>, n: nat): seq<Page> {
    if |pages| > n then pages[|pages| - n..] else pages
  }

  /** The pages from one on, each the next of the one before. */
  function Ahead(page: Page, next: Page -> Option<Page>, k: nat): Option<Page> {
    if k == 0 then Some(page) else
      match Ahead(page, next, k - 1)
      case None => None
      case Some(p) => next(p)
  }

  /** The pages that going forward k times leaves behind. */
  function Left(page: Page, next: Page -> Option<Page>, k: nat): (pages: seq<Page>)
    requires Ahead(page, next, k).Some?
    ensures |pages| == k
  {
    if k == 0 then [] else
      Left(page, next, k - 1) + [Ahead(page, next, k - 1).value]
  }

  /** The page on screen, and those left behind, oldest first. */
  datatype Stack = Stack(page: Page, history: seq<Page>)

  function Forward(s: Stack, following: Page): Stack {
    Stack(following, Last(s.history + [s.page], MAX_HISTORY))
  }

  function Backward(s: Stack): Stack {
    if s.history == [] then s else Stack(s.history[|s.history| - 1], s.history[..|s.history| - 1])
  }

  function ForwardBy(s: Stack, next: Page -> Option<Page>, k: nat): Stack
    requires Ahead(s.page, next, k).Some?
    ensures Ahead(s.page, next, k) == Some(ForwardBy(s, next, k).page)
  {
    if k == 0 then s else Forward(ForwardBy(s, next, k - 1), Ahead(s.page, next, k).value)
  }

  function BackwardBy(s: Stack, k: nat): Stack {
    if k == 0 then s else Backward(BackwardBy(s, k - 1))
  }

  lemma PushedOntoLast(pages: seq<Page>, page: Page)
    ensures Last(Last(pages, MAX_HISTORY) + [page], MAX_HISTORY) == Last(pages + [page], MAX_HISTORY)
  {
  }

  /** Going forward k times leaves the last of the pages passed on the stack. */
  lemma {:induction false} ForwardLeaves(s: Stack, next: Page -> Option<Page>, k: nat)
    requires Ahead(s.page, next, k).Some? && |s.history| <= MAX_HISTORY
    ensures ForwardBy(s, next, k).history == Last(s.history + Left(s.page, next, k), MAX_HISTORY)
  {
    if k == 0 {
      assert s.history + [] == s.history;
    } else {
      ForwardLeaves(s, next, k - 1);
      var passed := s.history + Left(s.page, next, k - 1);
      PushedOntoLast(passed, Ahead(s.page, next, k - 1).value);
      assert passed + [Ahead(s.page, next, k - 1).value] == s.history + Left(s.page, next, k);
    }
  }

  /** Going back k times takes k pages off it, or ends at the oldest. */
  lemma {:induction false} BackwardTakes(s: Stack, k: nat)
    ensures 0 < k <= |s.history| ==>
      BackwardBy(s, k) == Stack(s.history[|s.history| - k], s.history[..|s.history| - k])
    ensures k >= |s.history| > 0 ==> BackwardBy(s, k) == Stack(s.history[0], [])
    ensures s.history == [] ==> BackwardBy(s, k) == s
  {
    if k > 0 {
      BackwardTakes(s, k - 1);
    }
  }

  lemma {:induction false} LeftAt(page: Page, next: Page -> Option<Page>, k: nat, i: nat)
    requires Ahead(page, next, k).Some? && i < k
    ensures Some(Left(page, next, k)[i]) == Ahead(page, next, i)
  {
    if i < k - 1 {
      LeftAt(page, next, k - 1, i);
    }
  }

  /** k steps forward and k back return to where they began, for k up to the bound, whatever was left behind
      before; beyond it, the way back ends at the oldest page that was kept. */
  lemma ThereAndBack(s: Stack, next: Page -> Option<Page>, k: nat)
    requires Ahead(s.page, next, k).Some? && |s.history| <= MAX_HISTORY
    ensures k <= MAX_HISTORY ==>
      BackwardBy(ForwardBy(s, next, k), k) == Stack(s.page, Last(s.history, MAX_HISTORY - k))
    ensures k > MAX_HISTORY ==>
      && Ahead(s.page, next, k - MAX_HISTORY).Some?
      && BackwardBy(ForwardBy(s, next, k), k) == Stack(Ahead(s.page, next, k - MAX_HISTORY).value, [])
  {
    hide ForwardBy, BackwardBy, Left, Ahead;
    ForwardLeaves(s, next, k);
    BackwardTakes(ForwardBy(s, next, k), k);
    if k > 0 {
      var left := Left(s.page, next, k);
      LeftAt(s.page, next, k, if k > MAX_HISTORY then k - MAX_HISTORY else 0);
      LastOfTwo(s.history, left);
      AheadNow(s.page, next);
    } else {
      NothingMoves(s, next);
    }
  }

  lemma AheadNow(page: Page, next: Page -> Option<Page>)
    ensures Ahead(page, next, 0) == Some(page)
  {
  }

  lemma NothingMoves(s: Stack, next: Page -> Option<Page>)
    requires |s.history| <= MAX_HISTORY
    ensures Ahead(s.page, next, 0) == Some(s.page) && BackwardBy(ForwardBy(s, next, 0), 0) == s
    ensures Last(s.history, MAX_HISTORY) == s.history
  {
  }

  /** What is kept of two runs of pages, the second the newer. */
  lemma LastOfTwo(before: seq<Page>, left: seq<Page>)
    requires |before| <= MAX_HISTORY && left != []
    ensures var kept := Last(before + left, MAX_HISTORY);
            && (|left| <= MAX_HISTORY ==>
                  && |kept| >= |left| && kept[|kept| - |left|] == left[0]
                  && kept[..|kept| - |left|] == Last(before, MAX_HISTORY - |left|))
            && (|left| > MAX_HISTORY ==> |kept| == MAX_HISTORY && kept[0] == left[|left| - MAX_HISTORY])
  {
    if |before + left| > MAX_HISTORY && |left| <= MAX_HISTORY {
      var cut := |before + left| - MAX_HISTORY;
      assert (before + left)[cut..] == before[cut..] + left;
    }
  }

  class PageStack {
    var page: Page
    var history: seq<Page>
    const next: Page -> Option<Page>

    ghost function View(): Stack
      reads this
    {
      Stack(page, history)
    }

    ghost predicate Valid()
      reads this
    {
      |history| <= MAX_HISTORY
    }

    constructor (page: Page, next: Page -> Option<Page>)
      ensures Valid() && View() == Stack(page, []) && this.next == next
    {
      this.page, history, this.next := page, [], next;
    }

    /** Opens the next page, when there is one and it can be read, and only then changes the history. */
    method Next(loads: bool) returns (moved: bool)
      requires Valid()
      modifies this
      ensures Valid() && moved == (loads && next(old(page)).Some?)
      ensures View() == if moved then Forward(old(View()), next(old(page)).value) else old(View())
    {
      var following := next(page);
      if following.None? || !loads { return false; }
      var prior := page;
      page := following.value;
      if |history| == MAX_HISTORY {
        history := history[1..];
      }
      history := history + [prior];
      moved := true;
    }

    method Previous(loads: bool) returns (moved: bool)
      requires Valid()
      modifies this
      ensures Valid() && moved == (loads && old(history) != [])
      ensures View() == if moved then Backward(old(View())) else old(View())
    {
      if history == [] || !loads { return false; }
      var previous := history[|history| - 1];
      page := previous;
      if history[|history| - 1] == previous {
        history := history[..|history| - 1];
      }
      moved := true;
    }

    /** A page that removals left without an entry is left for the last one before it that lists something. */
    method LeaveEmptied(lists: Page -> bool, loads: Page -> bool)
      requires Valid()
      modifies this
      ensures Valid() && history <= old(history)
      ensures lists(page) || history == [] || !loads(history[|history| - 1])
      ensures View() == BackwardBy(old(View()), |old(history)| - |history|)
      ensures |history| < |old(history)| ==> !lists(old(page))
      ensures forall k | |history| < k < |old(history)| :: !lists(old(history)[k])
    {
      ghost var before := View();
      while history != [] && !lists(page)
        invariant Valid() && history <= before.history
        invariant View() == BackwardBy(before, |before.history| - |history|)
        invariant page == if |history| == |before.history| then before.page else before.history[|history|]
        invariant forall k | |history| < k < |before.history| :: !lists(before.history[k])
        invariant |history| < |before.history| ==> !lists(before.page)
        decreases |history|
      {
        var moved := Previous(loads(history[|history| - 1]));
        if !moved { break; }
      }
    }
  }
}
