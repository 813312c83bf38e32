/** PullChanges: reading the log page by page while it grows. */
module Pull {
  import opened Base
  import opened Vault
  import opened VaultHistory
  import opened Revisions
  import opened Decimal

  const DEFAULT_PAGE := 100
  const MAX_PAGE := 500

  datatype Page = Page(changes: seq<Event>, newRev: nat, next: string)

  function PullAfter(since: nat, token: string): Result<nat> {
    var tok := Trim(token);
    if tok == "" then Ok(since)
    else match Parse(tok)
      case None => Err(InvalidArgument)
      case Some(u) => Ok(if u > since then u else since)
  }

  function PageSize(n: nat): (r: nat)
    ensures 1 <= r <= MAX_PAGE && (1 <= n <= MAX_PAGE ==> r == n)
    ensures (n == 0 ==> r == DEFAULT_PAGE) && (n > MAX_PAGE ==> r == MAX_PAGE)
  {
    if n == 0 then DEFAULT_PAGE else if n > MAX_PAGE then MAX_PAGE else n
  }

  /** The handler against one snapshot of the tables. */
  function PullChanges(t: Tables, user: Id, since: nat, token: string, size: nat): Result<Page> {
    match PullAfter(since, token)
    case Err(e) => Err(e)
    case Ok(after) =>
      var limit := PageSize(size);
      var rows := List(t, user, after, limit + 1);
      var newRev := MaxRev(t.log, user);
      if |rows| > limit then Ok(Page(rows[..limit], newRev, Format(rows[limit - 1].entry.rev)))
      else Ok(Page(rows, newRev, ""))
  }

  /** One request: the snapshot it reads and the page size it asks for. */
  datatype Request = Request(t: Tables, size: nat)

  /** The pages a caller gets by following next_page_token until it is empty; None if the requests run out first
      or one is refused. */
  function Walk(reqs: seq<Request>, user: Id, since: nat, token: string): Option<seq<Page>>
    decreases |reqs|
  {
    if reqs == [] then None
    else match PullChanges(reqs[0].t, user, since, token, reqs[0].size)
      case Err(_) => None
      case Ok(page) =>
        if page.next == "" then Some([page])
        else match Walk(reqs[1..], user, since, page.next)
          case None => None
          case Some(rest) => Some([page] + rest)
  }

  function EntriesOf(evs: seq<Event>): seq<Entry> {
    seq(|evs|, i requires 0 <= i < |evs| => evs[i].entry)
  }

  function Entries(pages: seq<Page>): seq<Entry>
    decreases |pages|
  {
    if pages == [] then [] else EntriesOf(pages[0].changes) + Entries(pages[1..])
  }

  /** Successive snapshots of a log that only grows, with 64-bit revisions in commit order. */
  ghost predicate Growing(reqs: seq<Request>) {
    && (forall i | 0 <= i < |reqs| :: RevisionsIncrease(reqs[i].t.log) && Small(reqs[i].t.log))
    && forall i, j | 0 <= i < j < |reqs| :: reqs[i].t.log <= reqs[j].t.log
  }

  ghost predicate Small(log: seq<Entry>) {
    forall n | 0 <= n < |log| :: log[n].rev <= MAX_UINT64
  }

  // ---------------------------------------------------------------- the log between two reads

  lemma {:induction false} NoneAfter(log: seq<Entry>, user: Id, rev: nat)
    requires forall n | 0 <= n < |log| :: log[n].rev <= rev
    ensures After(log, user, rev) == []
    decreases |log|
  {
    if log != [] { NoneAfter(log[..|log| - 1], user, rev); }
  }

  /** Reading from the k-th row on is reading after its revision. */
  lemma {:induction false} SplitAfter(log: seq<Entry>, user: Id, rev: nat, k: nat)
    requires RevisionsIncrease(log) && k < |After(log, user, rev)|
    ensures After(log, user, After(log, user, rev)[k].rev) == After(log, user, rev)[k + 1..]
    decreases |log|
  {
    var front, e := log[..|log| - 1], log[|log| - 1];
    var rest := After(front, user, rev);
    assert RevisionsIncrease(front);
    if k < |rest| {
      SplitAfter(front, user, rev, k);
      AfterSound(front, user, rev, k);
      var n :| 0 <= n < |front| && front[n] == rest[k];
      assert log[n].rev < e.rev;
    } else {
      NoneAfter(front, user, e.rev);
    }
  }

  lemma {:induction false} AfterGrows(log: seq<Entry>, log': seq<Entry>, user: Id, rev: nat)
    requires log <= log'
    ensures After(log, user, rev) <= After(log', user, rev)
    decreases |log'|
  {
    if log != log' { AfterGrows(log, log'[..|log'| - 1], user, rev); }
  }

  /** A page of an earlier snapshot followed by what a later one has after it is the later reading. */
  lemma PageThenRest(log: seq<Entry>, log': seq<Entry>, user: Id, rev: nat, k: nat)
    requires log <= log' && RevisionsIncrease(log') && k < |After(log, user, rev)|
    ensures After(log, user, rev)[..k + 1] + After(log', user, After(log, user, rev)[k].rev) == After(log', user, rev)
  {
    AfterGrows(log, log', user, rev);
    SplitAfter(log', user, rev, k);
    hide After;
  }

  // ---------------------------------------------------------------- pages

  lemma ListEntries(t: Tables, user: Id, rev: nat, limit: nat)
    ensures EntriesOf(List(t, user, rev, limit)) == Prefix(After(t.log, user, rev), limit)
  {
    hide After;
  }

  /** One page: everything when the rest fits, and otherwise exactly `limit` rows and the revision of the last. */
  lemma PageShape(t: Tables, user: Id, since: nat, token: string, size: nat, after: nat)
    requires PullAfter(since, token) == Ok(after)
    ensures var all, limit := After(t.log, user, after), PageSize(size);
            var r := PullChanges(t, user, since, token, size);
            && r.Ok? && r.value.newRev == MaxRev(t.log, user)
            && if |all| <= limit then EntriesOf(r.value.changes) == all && r.value.next == ""
               else EntriesOf(r.value.changes) == all[..limit] && r.value.next == Format(all[limit - 1].rev)
  {
    hide After, PullAfter, MaxRev, Format, PageSize;
    var limit := PageSize(size);
    ListEntries(t, user, after, limit + 1);
    var rows := List(t, user, after, limit + 1);
    assert forall i | 0 <= i < |rows| :: rows[i].entry == EntriesOf(rows)[i];
    if |rows| > limit { assert EntriesOf(rows[..limit]) == EntriesOf(rows)[..limit]; }
  }

  /** A token of the walk leads back to the revision it names. */
  lemma TokenLeadsBack(since: nat, rev: nat)
    requires since < rev <= MAX_UINT64
    ensures PullAfter(since, Format(rev)) == Ok(rev) && Format(rev) != ""
  {
    TrimKeepsDigits(Format(rev));
    ParseFormat(rev);
  }

  lemma RowIsSmall(log: seq<Entry>, user: Id, rev: nat, k: nat)
    requires Small(log) && k < |After(log, user, rev)|
    ensures rev < After(log, user, rev)[k].rev <= MAX_UINT64
  {
    AfterSound(log, user, rev, k);
    var n :| 0 <= n < |log| && log[n] == After(log, user, rev)[k];
  }

  lemma GrowingRest(reqs: seq<Request>)
    requires Growing(reqs) && reqs != []
    ensures Growing(reqs[1..])
    ensures RevisionsIncrease(reqs[0].t.log) && Small(reqs[0].t.log)
  {
  }

  /** All pages but the last are exactly as long as asked for, never empty and at most 500 rows. */
  ghost predicate FullPages(reqs: seq<Request>, pages: seq<Page>) {
    && |pages| <= |reqs|
    && (forall i | 0 <= i < |pages| - 1 :: |pages[i].changes| == PageSize(reqs[i].size))
    && (pages != [] ==> |pages[|pages| - 1].changes| <= PageSize(reqs[|pages| - 1].size))
  }

  lemma FullPagesCons(reqs: seq<Request>, page: Page, rest: seq<Page>)
    requires reqs != [] && rest != [] && |page.changes| == PageSize(reqs[0].size) && FullPages(reqs[1..], rest)
    ensures FullPages(reqs, [page] + rest)
  {
    hide PageSize;
    var pages := [page] + rest;
    forall i | 0 <= i < |pages| - 1 ensures |pages[i].changes| == PageSize(reqs[i].size) {
      if i > 0 { assert pages[i] == rest[i - 1] && reqs[i] == reqs[1..][i - 1]; }
    }
    assert pages[|pages| - 1] == rest[|rest| - 1] && reqs[|pages| - 1] == reqs[1..][|rest| - 1];
  }

  lemma {:induction false} WalkFrom(reqs: seq<Request>, user: Id, since: nat, token: string, after: nat)
    requires Growing(reqs) && PullAfter(since, token) == Ok(after) && since <= after
    requires Walk(reqs, user, since, token).Some?
    ensures var pages := Walk(reqs, user, since, token).value;
            pages != [] && FullPages(reqs, pages) && Entries(pages) == After(reqs[|pages| - 1].t.log, user, after)
    decreases |reqs|
  {
    var t, limit := reqs[0].t, PageSize(reqs[0].size);
    var all := After(t.log, user, after);
    PageShape(t, user, since, token, reqs[0].size, after);
    hide PullChanges, After, Growing, FullPages, Format, Small;
    GrowingRest(reqs);
    var page := PullChanges(t, user, since, token, reqs[0].size).value;
    assert |EntriesOf(page.changes)| == |page.changes|;
    if |all| <= limit {
      LastPage(reqs, page);
    } else {
      var rev := all[limit - 1].rev;
      RowIsSmall(t.log, user, after, limit - 1);
      TokenLeadsBack(since, rev);
      hide PullAfter;
      WalkFrom(reqs[1..], user, since, page.next, rev);
      var rest := Walk(reqs[1..], user, since, page.next).value;
      assert |rest| <= |reqs[1..]| by { FullPagesFit(reqs[1..], rest); }
      PageJoinsRest(reqs, user, after, page, rest);
    }
  }

  /** A full page and the pages of a later walk from its last revision. */
  lemma PageJoinsRest(reqs: seq<Request>, user: Id, after: nat, page: Page, rest: seq<Page>)
    requires Growing(reqs) && rest != [] && |rest| < |reqs| && FullPages(reqs[1..], rest)
    requires PageSize(reqs[0].size) < |After(reqs[0].t.log, user, after)|
    requires EntriesOf(page.changes) == After(reqs[0].t.log, user, after)[..PageSize(reqs[0].size)]
    requires var rev := After(reqs[0].t.log, user, after)[PageSize(reqs[0].size) - 1].rev;
             Entries(rest) == After(reqs[|rest|].t.log, user, rev)
    ensures FullPages(reqs, [page] + rest) && Entries([page] + rest) == After(reqs[|rest|].t.log, user, after)
  {
    assert |EntriesOf(page.changes)| == |page.changes|;
    FullPagesCons(reqs, page, rest);
    EntriesCons(page, rest);
    LaterLog(reqs, |rest|);
    assert |reqs| > 0;
    hide After, FullPages, Growing, Entries, EntriesOf, RevisionsIncrease;
    PageThenRest(reqs[0].t.log, reqs[|rest|].t.log, user, after, PageSize(reqs[0].size) - 1);
  }

  lemma EntriesCons(page: Page, rest: seq<Page>)
    ensures Entries([page] + rest) == EntriesOf(page.changes) + Entries(rest)
  {
    assert ([page] + rest)[1..] == rest;
  }

  lemma FullPagesFit(reqs: seq<Request>, pages: seq<Page>)
    requires FullPages(reqs, pages)
    ensures |pages| <= |reqs|
  {
  }

  lemma LastPage(reqs: seq<Request>, page: Page)
    requires reqs != [] && |page.changes| <= PageSize(reqs[0].size)
    ensures FullPages(reqs, [page]) && Entries([page]) == EntriesOf(page.changes)
  {
  }

  lemma LaterLog(reqs: seq<Request>, j: nat)
    requires Growing(reqs) && 0 < j < |reqs|
    ensures reqs[0].t.log <= reqs[j].t.log && RevisionsIncrease(reqs[j].t.log)
  {
  }

  /** Following the tokens from any revision, with any page sizes, over a log that may grow between pages: the pages
      together are exactly the events after `since` in the snapshot of the last page, in increasing order. */
  lemma PullIsComplete(reqs: seq<Request>, user: Id, since: nat)
    requires Growing(reqs) && Walk(reqs, user, since, "").Some?
    ensures var pages := Walk(reqs, user, since, "").value;
            && pages != [] && FullPages(reqs, pages)
            && Entries(pages) == After(reqs[|pages| - 1].t.log, user, since)
            && forall i, j | 0 <= i < j < |Entries(pages)| :: Entries(pages)[i].rev < Entries(pages)[j].rev
  {
    WalkFrom(reqs, user, since, "", since);
    var pages := Walk(reqs, user, since, "").value;
    var log := reqs[|pages| - 1].t.log;
    assert RevisionsIncrease(log);
    hide Walk, After, Entries, Growing, FullPages;
    forall i, j | 0 <= i < j < |Entries(pages)| ensures Entries(pages)[i].rev < Entries(pages)[j].rev {
      AfterIncreases(log, user, since, i, j);
    }
  }

  /** Every full page makes progress, so as many requests as there are events left, and one more, finish the walk. */
  lemma {:induction false} PullFinishes(reqs: seq<Request>, user: Id, since: nat, token: string, after: nat,
                                        final: seq<Entry>)
    requires Growing(reqs) && PullAfter(since, token) == Ok(after) && since <= after
    requires RevisionsIncrease(final) && forall i | 0 <= i < |reqs| :: reqs[i].t.log <= final
    requires |After(final, user, after)| < |reqs|
    ensures Walk(reqs, user, since, token).Some?
    decreases |reqs|
  {
    var t, limit := reqs[0].t, PageSize(reqs[0].size);
    var all := After(t.log, user, after);
    PageShape(t, user, since, token, reqs[0].size, after);
    hide PullChanges, After, Growing, Format, Small, PageSize;
    GrowingRest(reqs);
    if |all| > limit {
      var rev := all[limit - 1].rev;
      RowIsSmall(t.log, user, after, limit - 1);
      TokenLeadsBack(since, rev);
      hide PullAfter;
      PageThenRest(t.log, final, user, after, limit - 1);
      PullFinishes(reqs[1..], user, since, PullChanges(t, user, since, token, reqs[0].size).value.next, rev, final);
    }
  }

  /** Where a request resumes: at `since` without a token, at the larger of the two with one, nowhere if the token is
      no 64-bit number. */
  lemma ResumesIff(t: Tables, user: Id, since: nat, token: string, size: nat)
    ensures PullChanges(t, user, since, token, size).Err? <==> Trim(token) != "" && Parse(Trim(token)).None?
    ensures PullChanges(t, user, since, token, size).Err?
            ==> PullChanges(t, user, since, token, size).error == InvalidArgument
    ensures Trim(token) == "" ==> PullAfter(since, token) == Ok(since)
    ensures forall n | Parse(Trim(token)) == Some(n) :: PullAfter(since, token) == Ok(if n < since then since else n)
  {
    hide After, MaxRev;
  }

  /** The revision reported beside a page is the user's newest. */
  lemma ReportsNewest(t: Tables, user: Id, since: nat, token: string, size: nat, n: nat)
    requires PullChanges(t, user, since, token, size).Ok? && n < |t.log| && t.log[n].user == user && t.log[n].rev > 0
    ensures var r := PullChanges(t, user, since, token, size).value.newRev;
            t.log[n].rev <= r && exists m :: 0 <= m < |t.log| && t.log[m].user == user && t.log[m].rev == r
  {
    MaxRevBounds(t.log, user, n);
    MaxRevIsOwn(t.log, user);
    hide MaxRev, After;
  }
}
