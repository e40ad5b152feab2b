/** Cursor pagination: the server's page and the client's cursor-following loop. */
module Pagination {
  import opened Wrappers
  import opened Base64
  import PythonInt

  const MAX_LIMIT := 200
  const MAX_CURSOR := 512

  lemma PlainIsAscii(offset: nat)
    ensures IsAscii("v1:" + PythonInt.Print(offset))
  {
    PythonInt.PrintDigits(offset);
    assert forall i | 0 <= i < |PythonInt.Print(offset)| :: PythonInt.IsDigit(PythonInt.Print(offset)[i]);
  }

  function EncodeCursor(offset: nat): string {
    PlainIsAscii(offset);
    Encode(Bytes("v1:" + PythonInt.Print(offset)))
  }

  /** text.split(":", 1) when there is a colon. */
  function SplitOnce(text: string): Option<(string, string)> {
    if text == "" then None
    else if text[0] == ':' then Some(("", text[1..]))
    else
      var rest := SplitOnce(text[1..]);
      if rest.None? then None else Some(([text[0]] + rest.value.0, rest.value.1))
  }

  /** The offset a cursor stands for; None is the source's ValueError. */
  function Cursor(raw: Option<string>): Option<nat> {
    if raw.None? || raw.value == "" then Some(0)
    else if |raw.value| > MAX_CURSOR then None
    else
      var bytes := Decode(raw.value);
      if bytes.None? || Text(bytes.value).None? then None
      else
        var parts := SplitOnce(Text(bytes.value).value);
        if parts.None? || parts.value.0 != "v1" then None
        else
          var offset := PythonInt.Parse(parts.value.1);
          if offset.None? || offset.value < 0 then None else Some(offset.value)
  }

  lemma {:induction false} SplitOnceAt(head: string, tail: string)
    requires ':' !in head
    ensures SplitOnce(head + ":" + tail) == Some((head, tail))
  {
    var s := head + ":" + tail;
    if head == "" {
      assert s[1..] == tail;
    } else {
      SplitOnceAt(head[1..], tail);
      assert s[1..] == head[1..] + ":" + tail && [head[0]] + head[1..] == head;
    }
  }

  /** The cursor of every offset that fits the length limit reads back as that offset. */
  lemma CursorRoundTrip(offset: nat)
    requires |EncodeCursor(offset)| <= MAX_CURSOR
    ensures EncodeCursor(offset) != "" && Cursor(Some(EncodeCursor(offset))) == Some(offset)
  {
    var text := "v1:" + PythonInt.Print(offset);
    PlainIsAscii(offset);
    RoundTrip(Bytes(text));
    TextOfBytes(text);
    assert text == "v1" + ":" + PythonInt.Print(offset);
    SplitOnceAt("v1", PythonInt.Print(offset));
    PythonInt.ParsePrint(offset);
  }

  lemma CursorLength(offset: nat)
    ensures |EncodeCursor(offset)| <= MAX_CURSOR <==> |PythonInt.Print(offset)| <= 381
  {
    PlainIsAscii(offset);
  }

  lemma {:induction false} PrintGrows(a: nat, b: nat)
    requires a <= b
    ensures |PythonInt.Print(a)| <= |PythonInt.Print(b)|
  {
    if a >= 10 { PrintGrows(a / 10, b / 10); }
  }

  // ---- the server

  datatype Page<T> = Page(items: seq<T>, next: Option<string>, hasMore: bool)

  function PageFrom<T>(items: seq<T>, limit: nat, offset: nat): Page<T>
    requires offset <= |items|
  {
    var stop := if offset + limit < |items| then offset + limit else |items|;
    Page(items[offset..stop], if stop < |items| then Some(EncodeCursor(stop)) else None, stop < |items|)
  }

  /** _page: None is a refused request. */
  function ServePage<T>(items: seq<T>, limit: int, cursor: Option<string>): Option<Page<T>> {
    if !(1 <= limit <= MAX_LIMIT) then None
    else
      var offset := Cursor(cursor);
      if offset.None? || offset.value > |items| then None else Some(PageFrom(items, limit, offset.value))
  }

  // ---- the client

  datatype Outcome = Finished | OutsideBound | CursorRejected | TooManyPages | RequestFailed

  function Joined<T>(pages: seq<Page<T>>): seq<T> {
    if pages == [] then [] else Joined(pages[..|pages| - 1]) + pages[|pages| - 1].items
  }

  /** The number of pages of a list: one for an empty list. */
  function PageCount(length: nat, limit: nat): nat
    requires limit >= 1
  {
    if length <= limit then 1 else 1 + PageCount(length - limit, limit)
  }

  /** It is the ceiling of length over limit for a list that is not empty. */
  lemma {:induction false} PageCountIsCeiling(length: nat, limit: nat)
    requires limit >= 1 && length >= 1
    ensures (PageCount(length, limit) - 1) * limit < length <= PageCount(length, limit) * limit
  {
    if length > limit {
      PageCountIsCeiling(length - limit, limit);
      var p := PageCount(length - limit, limit);
      assert (p - 1) * limit + limit == p * limit && p * limit + limit == (p + 1) * limit;
    }
  }

  /** What following cursors from one point yields, with `left` requests allowed. `sent` is
      the cursor of the last request, which a missing next cursor leaves in place. */
  function Follow<T>(server: Option<string> -> Option<Page<T>>, cursor: Option<string>, sent: Option<string>,
                     seen: set<string>, left: nat)
      : (seq<Page<T>>, Outcome)
    decreases left
  {
    if left == 0 then ([], TooManyPages)
    else
      var given := cursor.Some? && cursor.value != "";
      if given && (cursor.value in seen || |cursor.value| > MAX_CURSOR) then ([], CursorRejected)
      else
        var asked := if given then cursor else sent;
        var response := server(asked);
        if response.None? then ([], RequestFailed)
        else if !response.value.hasMore then ([response.value], Finished)
        else
          var used := if given then seen + {cursor.value} else seen;
          var rest := Follow(server, response.value.next, asked, used, left - 1);
          ([response.value] + rest.0, rest.1)
  }

  /** The whole run is the pages so far and what is still to come. */
  ghost predicate Continues<T>(whole: (seq<Page<T>>, Outcome), pages: seq<Page<T>>, rest: (seq<Page<T>>, Outcome)) {
    whole.0 == pages + rest.0 && whole.1 == rest.1
  }

  lemma PageDone<T>(whole: (seq<Page<T>>, Outcome), pages: seq<Page<T>>, page: Page<T>, later: (seq<Page<T>>, Outcome))
    requires Continues(whole, pages, ([page] + later.0, later.1))
    ensures Continues(whole, pages + [page], later)
  {
    assert pages + ([page] + later.0) == pages + [page] + later.0;
  }

  /** ControlPlaneClient.pages against any server. */
  method Pages<T>(server: Option<string> -> Option<Page<T>>, allowed: bool, maxPages: int, start: Option<string>)
      returns (pages: seq<Page<T>>, outcome: Outcome)
    ensures (pages, outcome) ==
            if !allowed || !(1 <= maxPages <= 100) then ([], OutsideBound)
            else Follow(server, start, None, {}, maxPages)
  {
    pages := [];
    if !allowed || !(1 <= maxPages <= 100) { return pages, OutsideBound; }
    var cursor := start;
    var sent: Option<string> := None;
    var seen: set<string> := {};
    ghost var whole := Follow(server, start, None, {}, maxPages);
    assert [] + whole.0 == whole.0;
    for i := 0 to maxPages
      invariant Continues(whole, pages, Follow(server, cursor, sent, seen, maxPages - i))
    {
      ghost var rest := Follow(server, cursor, sent, seen, maxPages - i);
      if cursor.Some? && cursor.value != "" {
        if cursor.value in seen || |cursor.value| > MAX_CURSOR {
          assert pages + [] == pages;
          return pages, CursorRejected;
        }
        seen := seen + {cursor.value};
        sent := cursor;
      }
      var response := server(sent);
      if response.None? {
        assert pages + [] == pages;
        return pages, RequestFailed;
      }
      ghost var before := pages;
      pages := pages + [response.value];
      cursor := response.value.next;
      if !response.value.hasMore { return pages, Finished; }
      ghost var later := Follow(server, cursor, sent, seen, maxPages - i - 1);
      assert rest == ([response.value] + later.0, later.1);
      PageDone(whole, before, response.value, later);
    }
    assert pages + [] == pages;
    outcome := TooManyPages;
  }

  // ---- both together

  /** A cursor the client may hold when `offset` items have been fetched. */
  predicate StandsFor(cursor: Option<string>, offset: nat) {
    if cursor.None? then offset == 0
    else cursor.value != "" && |cursor.value| <= MAX_CURSOR && Cursor(cursor) == Some(offset)
  }

  /** A mark small enough for the cursor of every offset in the list to fit its limit. */
  predicate Countable(length: nat) {
    |PythonInt.Print(length)| <= 381
  }

  lemma MintedStandsFor(offset: nat, length: nat)
    requires offset <= length && Countable(length)
    ensures StandsFor(Some(EncodeCursor(offset)), offset)
  {
    PrintGrows(offset, length);
    CursorLength(offset);
    CursorRoundTrip(offset);
  }

  /** A page holds the next `limit` items, and a cursor for what follows them. */
  lemma PageAt<T>(items: seq<T>, limit: nat, offset: nat)
    requires limit >= 1 && Countable(|items|) && offset <= |items|
    ensures var page := PageFrom(items, limit, offset);
      && page.hasMore == (limit < |items[offset..]|)
      && (if page.hasMore
          then page.items == items[offset..][..limit] && page.next.Some? && StandsFor(page.next, offset + limit)
          else page.items == items[offset..])
  {
    if offset + limit < |items| { MintedStandsFor(offset + limit, |items|); }
  }

  predicate Earlier(cursor: string, offset: nat) {
    var at := Cursor(Some(cursor));
    at.Some? && at.value < offset
  }

  /** Every cursor used so far stands for a smaller offset. */
  ghost predicate Behind(seen: set<string>, offset: nat) {
    forall c :: c in seen ==> Earlier(c, offset)
  }

  lemma BehindGrows(seen: set<string>, cursor: string, offset: nat, later: nat)
    requires Behind(seen, offset) && StandsFor(Some(cursor), offset) && offset < later
    ensures cursor !in seen && Behind(seen + {cursor}, later)
  {
    assert !Earlier(cursor, offset) && Earlier(cursor, later);
    forall c | c in seen ensures Earlier(c, later) { assert Earlier(c, offset); }
  }

  /** What one run of the client amounts to, for a list of which `rest` is still unread. */
  ghost predicate Covers<T>(run: (seq<Page<T>>, Outcome), rest: seq<T>, limit: nat, left: nat)
    requires limit >= 1
  {
    var count := PageCount(|rest|, limit);
    if count <= left then run.1 == Finished && |run.0| == count && Joined(run.0) == rest
    else run.1 == TooManyPages && |run.0| == left && Joined(run.0) <= rest
  }

  lemma CoversMore<T>(first: Page<T>, run: (seq<Page<T>>, Outcome), rest: seq<T>, limit: nat, left: nat)
    requires 1 <= limit < |rest| && first.items == rest[..limit]
    requires Covers(run, rest[limit..], limit, left)
    ensures Covers(([first] + run.0, run.1), rest, limit, left + 1)
  {
    JoinedFirst(first, run.0);
    assert rest == rest[..limit] + rest[limit..];
  }

  lemma CoversLast<T>(last: Page<T>, rest: seq<T>, limit: nat, left: nat)
    requires limit >= 1 && |rest| <= limit && last.items == rest && left >= 1
    ensures Covers(([last], Finished), rest, limit, left)
  {
    JoinedFirst(last, []);
    assert [last] + [] == [last];
  }

  /** A server that answers every cursor with the page of a fixed list it stands for. */
  ghost predicate Answers<T(!new)>(server: Option<string> -> Option<Page<T>>, items: seq<T>, limit: nat) {
    forall cursor, offset: nat {:trigger StandsFor(cursor, offset)} ::
      StandsFor(cursor, offset) && offset <= |items| ==> server(cursor) == Some(PageFrom(items, limit, offset))
  }

  lemma Answered<T(!new)>(items: seq<T>, limit: nat, server: Option<string> -> Option<Page<T>>, cursor: Option<string>,
                          offset: nat) returns (page: Page<T>)
    requires limit >= 1 && Countable(|items|) && Answers(server, items, limit)
    requires offset <= |items| && StandsFor(cursor, offset)
    ensures server(cursor) == Some(page)
    ensures page.hasMore == (limit < |items[offset..]|)
    ensures if page.hasMore
            then page.items == items[offset..][..limit] && page.next.Some? && StandsFor(page.next, offset + limit)
            else page.items == items[offset..]
  {
    page := PageFrom(items, limit, offset);
    PageAt(items, limit, offset);
  }

  lemma {:induction false} FollowFrom<T(!new)>(items: seq<T>, limit: int, server: Option<string> -> Option<Page<T>>,
                                         cursor: Option<string>, offset: nat, sent: Option<string>,
                                         seen: set<string>, left: nat)
    requires limit >= 1 && Countable(|items|) && Answers(server, items, limit)
    requires offset <= |items| && StandsFor(cursor, offset) && Behind(seen, offset)
    requires cursor.None? ==> sent.None?
    ensures Covers(Follow(server, cursor, sent, seen, left), items[offset..], limit, left)
    decreases left
  {
    var rest := items[offset..];
    if left > 0 {
      var page := Answered(items, limit, server, cursor, offset);
      if cursor.Some? { BehindGrows(seen, cursor.value, offset, offset + limit); }
      if page.hasMore {
        var used := if cursor.Some? then seen + {cursor.value} else seen;
        FollowFrom(items, limit, server, page.next, offset + limit, cursor, used, left - 1);
        assert items[offset + limit..] == rest[limit..];
        CoversMore(page, Follow(server, page.next, cursor, used, left - 1), rest, limit, left - 1);
      } else {
        CoversLast(page, rest, limit, left);
      }
    }
  }

  lemma {:induction false} JoinedFirst<T>(page: Page<T>, rest: seq<Page<T>>)
    ensures Joined([page] + rest) == page.items + Joined(rest)
  {
    var all := [page] + rest;
    if rest == [] {
      assert all[..0] == [] && Joined<T>([]) + page.items == page.items + [];
    } else {
      var front := rest[..|rest| - 1];
      JoinedFirst(page, front);
      assert all[..|all| - 1] == [page] + front;
    }
  }

  /** Against a server whose list does not change, following cursors from the start yields
      the list page by page, in order, in exactly PageCount pages, whenever that many requests
      are allowed; otherwise it fails after a prefix of the list. So no cursor is ever refused
      by the server or found repeated by the client. */
  lemma PagesCoverTheList<T(!new)>(items: seq<T>, limit: int, server: Option<string> -> Option<Page<T>>, maxPages: nat)
    requires 1 <= limit <= MAX_LIMIT && Countable(|items|)
    requires forall c :: server(c) == ServePage(items, limit, c)
    ensures var (pages, outcome) := Follow(server, None, None, {}, maxPages);
      if PageCount(|items|, limit) <= maxPages
      then outcome == Finished && |pages| == PageCount(|items|, limit) && Joined(pages) == items
      else outcome == TooManyPages && |pages| == maxPages && Joined(pages) <= items
  {
    forall cursor, offset: nat | StandsFor(cursor, offset) && offset <= |items|
      ensures server(cursor) == Some(PageFrom(items, limit, offset))
    {
      assert server(cursor) == ServePage(items, limit, cursor);
    }
    FollowFrom(items, limit, server, None, 0, None, {}, maxPages);
    assert items[0..] == items;
  }
}
