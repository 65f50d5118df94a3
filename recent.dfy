/** The `/recent` query of app/routes/songs.py: the current user's logged
    songs, newest first, at most ten. */
module RecentQuery {
  import opened Common
  import opened Models
  import opened Sessions

  /** The query's `LIMIT`. */
  const RecentLimit: nat := 10

  function Min(a: nat, b: nat): nat {
    if a <= b then a else b
  }

  /** Ordered by `added_at` descending. */
  predicate NewestFirst(s: seq<RecentSong>) {
    forall i, j :: 0 <= i < j < |s| ==> s[i].addedAt >= s[j].addedAt
  }

  /** What the query may return for `uid`: rows of the table owned by `uid`,
      newest first, as many as the limit allows, and no owned row left out is
      newer than the last one returned. */
  predicate IsRecentSelection(table: seq<RecentSong>, uid: string, out: seq<RecentSong>) {
    && NewestFirst(out)
    && (forall i :: 0 <= i < |out| ==> out[i].userId == uid)
    && multiset(out) <= multiset(table)
    && |out| == Min(RecentLimit, |Owned(table, uid)|)
    && (forall x :: x in multiset(table) - multiset(out) && x.userId == uid ==>
          |out| > 0 && x.addedAt <= out[|out| - 1].addedAt)
  }

  /** `WHERE user_id = uid`, in table order. */
  function Owned(table: seq<RecentSong>, uid: string): (r: seq<RecentSong>)
    ensures forall x: RecentSong :: x.userId == uid ==> multiset(r)[x] == multiset(table)[x]
    ensures forall x: RecentSong :: x.userId != uid ==> multiset(r)[x] == 0
    decreases |table|
  {
    if |table| == 0 then []
    else
      assert table == [table[0]] + table[1..];
      var rest := Owned(table[1..], uid);
      if table[0].userId == uid then [table[0]] + rest else rest
  }

  /** Puts a row into a newest-first list: before the first row that is not
      newer than it. The new head is the row or the old head. */
  function Insert(x: RecentSong, s: seq<RecentSong>): (r: seq<RecentSong>)
    requires NewestFirst(s)
    ensures NewestFirst(r)
    ensures |r| == |s| + 1
    ensures r[0] == x || (|s| > 0 && r[0] == s[0])
    ensures multiset(r) == multiset(s) + multiset{x}
    decreases |s|
  {
    if |s| == 0 then [x]
    else if x.addedAt >= s[0].addedAt then [x] + s
    else
      assert s == [s[0]] + s[1..];
      [s[0]] + Insert(x, s[1..])
  }

  /** `ORDER BY added_at DESC`, by insertion. */
  function SortNewestFirst(rows: seq<RecentSong>): (r: seq<RecentSong>)
    ensures NewestFirst(r)
    ensures |r| == |rows|
    ensures multiset(r) == multiset(rows)
    decreases |rows|
  {
    if |rows| == 0 then []
    else
      assert rows == [rows[0]] + rows[1..];
      Insert(rows[0], SortNewestFirst(rows[1..]))
  }

  /** The query itself: the user's rows, newest first, at most ten. */
  function RecentFor(table: seq<RecentSong>, uid: string): (r: seq<RecentSong>)
    ensures IsRecentSelection(table, uid, r)
  {
    var sorted := SortNewestFirst(Owned(table, uid));
    var n := Min(RecentLimit, |sorted|);
    PrefixNewestFirst(sorted, n);
    OwnedPrefix(table, uid, sorted, sorted[..n]);
    sorted[..n]
  }

  /** The order and the limit of a newest-first list's prefix. */
  lemma PrefixNewestFirst(s: seq<RecentSong>, n: nat)
    requires NewestFirst(s) && n <= |s| && (n > 0 || |s| == 0)
    ensures NewestFirst(s[..n])
    ensures multiset(s[..n]) <= multiset(s)
    ensures forall x :: x in multiset(s) - multiset(s[..n]) ==> n > 0 && x.addedAt <= s[n - 1].addedAt
  {
    assert s == s[..n] + s[n..];
    assert multiset(s) == multiset(s[..n]) + multiset(s[n..]);
    forall x | x in multiset(s) - multiset(s[..n])
      ensures n > 0 && x.addedAt <= s[n - 1].addedAt
    {
      assert x in multiset(s[n..]);
      var j :| 0 <= j < |s[n..]| && s[n..][j] == x;
      assert s[n + j] == x;
    }
  }

  /** Rows drawn from the owned rows are owned rows of the table, and an owned
      row the prefix misses is one the sorted list holds after it. */
  lemma OwnedPrefix(table: seq<RecentSong>, uid: string, sorted: seq<RecentSong>, out: seq<RecentSong>)
    requires multiset(sorted) == multiset(Owned(table, uid)) && multiset(out) <= multiset(sorted)
    ensures multiset(out) <= multiset(table)
    ensures forall i :: 0 <= i < |out| ==> out[i].userId == uid
    ensures forall x :: x in multiset(table) - multiset(out) && x.userId == uid ==>
      x in multiset(sorted) - multiset(out)
  {
    forall i | 0 <= i < |out|
      ensures out[i].userId == uid
    {
      assert out[i] in multiset(out);
    }
  }

  /** `get_recent_songs`, behind `get_current_user`. */
  function GetRecentSongs(cookie: Option<string>, sessions: map<string, string>, users: map<string, User>,
                          table: seq<RecentSong>): (r: Result<seq<RecentSong>>)
    requires UsersKeyed(users)
    ensures GetCurrentUser(cookie, sessions, users).Err? ==> r == Err(GetCurrentUser(cookie, sessions, users).error)
    ensures r.Ok? <==> GetCurrentUser(cookie, sessions, users).Ok?
    ensures r.Ok? ==> IsRecentSelection(table, GetCurrentUser(cookie, sessions, users).value.userId, r.value)
  {
    match GetCurrentUser(cookie, sessions, users)
    case Err(e) => Err(e)
    case Ok(user) =>
      Ok(RecentFor(table, user.userId))
  }

  /** The query reads only which users exist, not their tokens or playlists. */
  lemma RecentSongsIgnoreUserFields(cookie: Option<string>, sessions: map<string, string>,
                                    users1: map<string, User>, users2: map<string, User>, table: seq<RecentSong>)
    requires UsersKeyed(users1) && UsersKeyed(users2) && users1.Keys == users2.Keys
    ensures GetRecentSongs(cookie, sessions, users1, table) == GetRecentSongs(cookie, sessions, users2, table)
  {
  }

  /** The sorted owned rows are exactly the table's rows of that user. */
  lemma SortedOwnedMembers(table: seq<RecentSong>, uid: string, x: RecentSong)
    ensures x in SortNewestFirst(Owned(table, uid)) <==> x in table && x.userId == uid
  {
    assert x in SortNewestFirst(Owned(table, uid)) <==> multiset(SortNewestFirst(Owned(table, uid)))[x] > 0;
    assert x in table <==> multiset(table)[x] > 0;
  }

  lemma TableRowsOlder(table: seq<RecentSong>, row: RecentSong, x: RecentSong)
    requires forall i :: 0 <= i < |table| ==> table[i].addedAt < row.addedAt
    ensures x in table ==> x.addedAt < row.addedAt
  {
    if x in table {
      var i :| 0 <= i < |table| && table[i] == x;
    }
  }

  /** A row newer than every row already logged comes first in its owner's
      list. */
  lemma {:induction false} NewestRowLeads(table: seq<RecentSong>, row: RecentSong)
    requires forall i :: 0 <= i < |table| ==> table[i].addedAt < row.addedAt
    ensures |RecentFor(table + [row], row.userId)| > 0
    ensures RecentFor(table + [row], row.userId)[0] == row
  {
    var t := table + [row];
    var sorted := SortNewestFirst(Owned(t, row.userId));
    assert t[|table|] == row;
    SortedOwnedMembers(t, row.userId, row);
    var j :| 0 <= j < |sorted| && sorted[j] == row;
    var top := sorted[0];
    assert top.addedAt >= row.addedAt;
    SortedOwnedMembers(t, row.userId, top);
    TableRowsOlder(table, row, top);
    assert top in table || top == row;
    assert RecentFor(t, row.userId)[0] == top;
  }
}
