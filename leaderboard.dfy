/** The LeaderBoard plugin (leaderboard/leaderboard.py): reputation points
    handed from one user to another, and the paged board of everyone's
    points. */
module Leaderboard {
  import opened Wrappers
  import opened Strings

  type UserId = nat

  // ---------------------------------------------------------------------
  // Text and pages

  const Ellipsis: char := '\U{2026}'   // "…"

  /** `_truncate_text` (leaderboard/leaderboard.py:175-179). With
      `maxLength == 0` Python's `text[:-1]` keeps all but the last
      character. */
  function TruncateText(text: string, maxLength: nat): (r: string)
    ensures |text| <= maxLength ==> r == text
    ensures |text| > maxLength && maxLength >= 1 ==>
      |r| == maxLength && r[..maxLength - 1] == text[..maxLength - 1] && r[maxLength - 1] == Ellipsis
    ensures |text| > maxLength && maxLength == 0 ==> r == text[..|text| - 1] + [Ellipsis]
  {
    if |text| > maxLength then
      (if maxLength >= 1 then text[..maxLength - 1] else text[..|text| - 1]) + [Ellipsis]
    else text
  }

  /** `math.ceil(len(sorted_list) / per_page)` with fifteen entries per page (leaderboard/leaderboard.py:133). */
  function PageCount(n: nat): (pages: nat)
    ensures 15 * pages >= n
    ensures pages >= 1 ==> 15 * (pages - 1) < n
    ensures pages == 0 <==> n == 0
  {
    (n + 14) / 15
  }

  /** ♔ ♕ ♖ ♗ ♘ ♙ */
  const SpecialLabels: seq<string> := ["\U{2654}", "\U{2655}", "\U{2656}", "\U{2657}", "\U{2658}", "\U{2659}"]
  const DefaultLabel: string := "  "

  /** The label before a rank (leaderboard/leaderboard.py:150-157). */
  function Label(rank: nat): (tag: string)
    requires rank >= 1
    ensures rank <= 6 ==> tag == SpecialLabels[rank - 1]
    ensures rank > 6 ==> tag == DefaultLabel
  {
    if rank - 1 < |SpecialLabels| then SpecialLabels[rank - 1] else DefaultLabel
  }

  /** The first six ranks get six different labels, none of them the
      default one. */
  lemma LabelsDistinct(a: nat, b: nat)
    requires 1 <= a <= 6 && 1 <= b <= 6
    ensures Label(a) != DefaultLabel
    ensures Label(a) == Label(b) <==> a == b
  {
    if Label(a) == Label(b) {
      assert Label(a)[0] == Label(b)[0];
    }
  }

  // ---------------------------------------------------------------------
  // Sorting by points

  /** A `(name, points)` pair of the board. */
  datatype Scored = Scored(name: string, points: int)

  predicate SortedDesc(s: seq<Scored>) {
    forall i, j :: 0 <= i < j < |s| ==> s[i].points >= s[j].points
  }

  /** Put `x` after every entry with at least as many points. */
  function Insert(x: Scored, s: seq<Scored>): (r: seq<Scored>)
    ensures multiset(r) == multiset(s) + multiset{x}
    ensures |r| == |s| + 1
  {
    if s == [] then [x]
    else if s[0].points >= x.points then
      assert s == [s[0]] + s[1..];
      [s[0]] + Insert(x, s[1..])
    else [x] + s
  }

  /** Inserting into a sorted board keeps it sorted. */
  lemma {:induction false} InsertKeepsSorted(x: Scored, s: seq<Scored>)
    requires SortedDesc(s)
    ensures SortedDesc(Insert(x, s))
    ensures Insert(x, s)[0] == x || Insert(x, s)[0] == s[0]
  {
    if s != [] && s[0].points >= x.points {
      InsertKeepsSorted(x, s[1..]);
      var rest := Insert(x, s[1..]);
      assert forall j :: 0 <= j < |rest| ==> s[0].points >= rest[j].points by {
        forall j | 0 <= j < |rest|
          ensures s[0].points >= rest[j].points
        {
          if j > 0 {
            assert rest[0].points >= rest[j].points;
          }
        }
      }
    }
  }

  /** `sorted(users, key=operator.itemgetter(1), reverse=True)`
      (leaderboard/leaderboard.py:119): entries in descending order of
      points, ties in their original order. */
  function SortByPoints(s: seq<Scored>): (r: seq<Scored>)
    ensures SortedDesc(r)
    ensures multiset(r) == multiset(s)
    ensures |r| == |s|
    decreases |s|
  {
    if s == [] then []
    else
      assert s == s[..|s| - 1] + [s[|s| - 1]];
      var sorted := SortByPoints(s[..|s| - 1]);
      InsertKeepsSorted(s[|s| - 1], sorted);
      Insert(s[|s| - 1], sorted)
  }

  // ---------------------------------------------------------------------
  // The board

  /** What `all_users()` holds for one user, in the store's order. */
  datatype StoredUser = StoredUser(id: UserId, points: int)

  /** One line of the board. */
  datatype Row = Row(rank: nat, tag: string, name: string, points: int)

  datatype Board = Board(page: nat, pages: nat, rows: seq<Row>, authorRank: nat, authorPoints: int)

  /** What `repboard` ends with. `Crashed` stands for the exceptions of the
      source: a user missing from the bot's cache (the coroutine
      `fetch_user` returns is never awaited, so reading its `name` fails),
      an author with no stored points (`user_stat` unbound) or an author
      whose name is on no row (`author_rank` unbound). */
  datatype BoardReply = EmptyBoard | InvalidPage(pages: nat) | Shown(board: Board) | Crashed

  /** The `(name, points)` pairs in the store's order. */
  function Scores(allUsers: seq<StoredUser>, names: map<UserId, string>): (r: seq<Scored>)
    requires forall e :: e in allUsers ==> e.id in names
    ensures |r| == |allUsers|
    ensures forall i :: 0 <= i < |r| ==> r[i] == Scored(names[allUsers[i].id], allUsers[i].points)
    decreases |allUsers|
  {
    if allUsers == [] then []
    else Scores(allUsers[..|allUsers| - 1], names) + [Scored(names[allUsers[|allUsers| - 1].id], allUsers[|allUsers| - 1].points)]
  }

  /** The position, from 1, of the first entry carrying `name`. */
  function FirstRank(sorted: seq<Scored>, name: string): (rank: Option<nat>)
    ensures rank.None? <==> forall i :: 0 <= i < |sorted| ==> sorted[i].name != name
    ensures rank.Some? ==> 1 <= rank.value <= |sorted| && sorted[rank.value - 1].name == name
    ensures rank.Some? ==> forall i :: 0 <= i < rank.value - 1 ==> sorted[i].name != name
    decreases |sorted|
  {
    if sorted == [] then None
    else if sorted[0].name == name then Some(1)
    else
      var rest := FirstRank(sorted[1..], name);
      if rest.None? then None else Some(rest.value + 1)
  }

  /** The rank loop of `repboard` (leaderboard/leaderboard.py:120-125). */
  method FindRank(sorted: seq<Scored>, name: string) returns (rank: Option<nat>)
    ensures rank == FirstRank(sorted, name)
  {
    var r := 1;
    for k := 0 to |sorted|
      invariant r == k + 1
      invariant forall i :: 0 <= i < k ==> sorted[i].name != name
    {
      if sorted[k].name == name {
        return Some(r);
      }
      r := r + 1;
    }
    rank := None;
  }

  /** How many entries page `page` of a board of `n` shows: fifteen, or
      what is left on the last page. */
  function PageLength(n: nat, page: nat): (len: nat)
    requires 1 <= page <= PageCount(n)
    ensures 1 <= len <= 15 && 15 * (page - 1) + len <= n
    ensures page < PageCount(n) ==> len == 15
    ensures page == PageCount(n) ==> 15 * (page - 1) + len == n
  {
    if n - 15 * (page - 1) < 15 then n - 15 * (page - 1) else 15
  }

  /** The line of the entry ranked `rank`: its label and its name cut to
      15 characters. */
  function RowAt(sorted: seq<Scored>, rank: nat): (row: Row)
    requires 1 <= rank <= |sorted|
    ensures row.rank == rank && row.points == sorted[rank - 1].points
    ensures |row.name| <= 15
  {
    Row(rank, Label(rank), TruncateText(sorted[rank - 1].name, 15), sorted[rank - 1].points)
  }

  /** Page `page` of the board: the entries `15(page-1)` up to
      `15 page`, ranked from `15(page-1)+1`. */
  function PageOf(sorted: seq<Scored>, page: nat): (rows: seq<Row>)
    requires 1 <= page <= PageCount(|sorted|)
    ensures 1 <= |rows| <= 15
    ensures forall k :: 0 <= k < |rows| ==> rows[k].rank == 15 * (page - 1) + k + 1 <= |sorted|
    ensures forall k :: 0 <= k < |rows| ==> rows[k].points == sorted[15 * (page - 1) + k].points
  {
    var len := PageLength(|sorted|, page);
    var rows := seq(len, k requires 0 <= k < len => RowAt(sorted, 15 * (page - 1) + k + 1));
    assert forall k :: 0 <= k < len ==> rows[k] == RowAt(sorted, 15 * (page - 1) + k + 1);
    rows
  }

  /** The row loop of `repboard` (leaderboard/leaderboard.py:142-165). */
  method PageRows(sorted: seq<Scored>, page: nat) returns (rows: seq<Row>)
    requires 1 <= page <= PageCount(|sorted|)
    ensures rows == PageOf(sorted, page)
  {
    var rank := 1 + 15 * (page - 1);
    var startIndex := 15 * page - 15;
    var endIndex := 15 * page;
    var slice := sorted[startIndex..if endIndex <= |sorted| then endIndex else |sorted|];
    rows := [];
    for k := 0 to |slice|
      invariant rank == startIndex + k + 1
      invariant |rows| == k
      invariant forall j :: 0 <= j < k ==> rows[j] == RowAt(sorted, startIndex + j + 1)
    {
      var single := slice[k];
      assert single == sorted[rank - 1];
      rows := rows + [Row(rank, Label(rank), TruncateText(single.name, 15), single.points)];
      rank := rank + 1;
    }
    assert |slice| == PageLength(|sorted|, page);
  }

  /** The author's points as `repboard` finds them: those of the last
      stored entry with the author's id, or nothing when there is none. */
  function AuthorPoints(allUsers: seq<StoredUser>, author: UserId): (r: Option<int>)
    ensures r.None? <==> forall e :: e in allUsers ==> e.id != author
    ensures r.Some? ==> exists e :: e in allUsers && e.id == author && e.points == r.value
    decreases |allUsers|
  {
    if allUsers == [] then None
    else
      var last := allUsers[|allUsers| - 1];
      assert allUsers == allUsers[..|allUsers| - 1] + [last];
      if last.id == author then Some(last.points) else AuthorPoints(allUsers[..|allUsers| - 1], author)
  }

  /** The first loop of `repboard` (leaderboard/leaderboard.py:111-115):
      every stored user's name and points in the store's order, and the
      author's own points. `None` for the list when a user is missing from
      the bot's cache. */
  method CollectUsers(allUsers: seq<StoredUser>, names: map<UserId, string>, author: UserId)
    returns (users: Option<seq<Scored>>, userStat: Option<int>)
    ensures users.None? <==> exists e :: e in allUsers && e.id !in names
    ensures users.Some? ==> users.value == Scores(allUsers, names) && userStat == AuthorPoints(allUsers, author)
  {
    var collected: seq<Scored> := [];
    userStat := None;
    for i := 0 to |allUsers|
      invariant forall e :: e in allUsers[..i] ==> e.id in names
      invariant collected == Scores(allUsers[..i], names)
      invariant userStat == AuthorPoints(allUsers[..i], author)
    {
      assert allUsers[..i + 1] == allUsers[..i] + [allUsers[i]];
      assert allUsers[..i + 1][..i] == allUsers[..i];
      var userId := allUsers[i].id;
      if userId !in names {
        assert allUsers[i] in allUsers;
        return None, userStat;
      }
      collected := collected + [Scored(names[userId], allUsers[i].points)];
      if author == userId {
        userStat := Some(allUsers[i].points);
      }
    }
    assert allUsers[..|allUsers|] == allUsers;
    users := Some(collected);
  }

  /** Some stored user is missing from the bot's cache. */
  predicate SomeUnknown(allUsers: seq<StoredUser>, names: map<UserId, string>) {
    exists e :: e in allUsers && e.id !in names
  }

  /** What `repboard` answers (leaderboard/leaderboard.py:99-173). `names`
      is what the bot's user cache knows; the author is found on the board
      by name. Both missing footer values crash before the page number is
      looked at. */
  function RepboardSpec(allUsers: seq<StoredUser>, names: map<UserId, string>, author: UserId, authorName: string, pageList: int): BoardReply {
    if allUsers == [] then EmptyBoard
    else if SomeUnknown(allUsers, names) then Crashed
    else
      var sorted := SortByPoints(Scores(allUsers, names));
      var rank := FirstRank(sorted, authorName);
      var stat := AuthorPoints(allUsers, author);
      if rank.None? || stat.None? then Crashed
      else if !(1 <= pageList <= PageCount(|sorted|)) then InvalidPage(PageCount(|sorted|))
      else Shown(Board(pageList, PageCount(|sorted|), PageOf(sorted, pageList), rank.value, stat.value))
  }

  /** `repboard` (leaderboard/leaderboard.py:99-173). `allUsers` is the
      stored users in the order `Config.all_users` gives them, that is
      `LeaderBoard.users` read in that order; `names` is the bot's cache. */
  method Repboard(allUsers: seq<StoredUser>, names: map<UserId, string>, author: UserId, authorName: string, pageList: int)
    returns (reply: BoardReply)
    ensures reply == RepboardSpec(allUsers, names, author, authorName, pageList)
  {
    if allUsers == [] {
      return EmptyBoard;
    }
    var users, userStat := CollectUsers(allUsers, names, author);
    if users.None? {
      return Crashed;
    }
    var sortedList := SortByPoints(users.value);
    var authorRank := FindRank(sortedList, authorName);
    if authorRank.None? || userStat.None? {
      return Crashed;
    }
    var pages := PageCount(|sortedList|);
    if !(1 <= pageList <= pages) {
      return InvalidPage(pages);
    }
    var rows := PageRows(sortedList, pageList);
    reply := Shown(Board(pageList, pages, rows, authorRank.value, userStat.value));
  }

  /** What a shown board holds: the requested page of `sorted`, the
      author's rank as the first row carrying the author's name, and the
      author's stored points. */
  predicate ShowsBoard(sorted: seq<Scored>, allUsers: seq<StoredUser>, author: UserId, authorName: string, pageList: int, b: Board) {
    && b.pages == PageCount(|sorted|) && 1 <= b.page == pageList <= b.pages
    && 1 <= b.authorRank <= |sorted| && sorted[b.authorRank - 1].name == authorName
    && (forall i :: 0 <= i < b.authorRank - 1 ==> sorted[i].name != authorName)
    && AuthorPoints(allUsers, author) == Some(b.authorPoints)
    && |b.rows| == PageLength(|sorted|, b.page)
    && forall k :: 0 <= k < |b.rows| ==> b.rows[k] == RowAt(sorted, 15 * (b.page - 1) + k + 1)
  }

  /** The board's answers: empty iff nothing is stored; a crash when a user
      is not in the cache or the author has no stored points; otherwise
      the page is refused exactly when it is outside `1..pages`. */
  lemma RepboardOutcomes(allUsers: seq<StoredUser>, names: map<UserId, string>, author: UserId, authorName: string, pageList: int)
    ensures var reply := RepboardSpec(allUsers, names, author, authorName, pageList);
      && (reply == EmptyBoard <==> allUsers == [])
      && (allUsers != [] && SomeUnknown(allUsers, names) ==> reply == Crashed)
      && (allUsers != [] && (forall e :: e in allUsers ==> e.id != author) ==> reply == Crashed)
      && (reply.InvalidPage? ==> reply.pages == PageCount(|allUsers|) && !(1 <= pageList <= reply.pages))
      && (!reply.Crashed? && allUsers != [] ==> (reply.Shown? <==> 1 <= pageList <= PageCount(|allUsers|)))
  {
  }

  /** A shown board is the requested page of the entries sorted by points,
      with the author's first rank and stored points. */
  lemma RepboardShown(allUsers: seq<StoredUser>, names: map<UserId, string>, author: UserId, authorName: string, pageList: int)
    requires RepboardSpec(allUsers, names, author, authorName, pageList).Shown?
    ensures !SomeUnknown(allUsers, names)
    ensures ShowsBoard(SortByPoints(Scores(allUsers, names)), allUsers, author, authorName, pageList,
                       RepboardSpec(allUsers, names, author, authorName, pageList).board)
  {
    PageShown(SortByPoints(Scores(allUsers, names)), allUsers, author, authorName, pageList);
  }

  /** The board assembled from any ordering of the entries shows its
      requested page. */
  lemma PageShown(sorted: seq<Scored>, allUsers: seq<StoredUser>, author: UserId, authorName: string, pageList: int)
    requires FirstRank(sorted, authorName).Some? && AuthorPoints(allUsers, author).Some?
    requires 1 <= pageList <= PageCount(|sorted|)
    ensures ShowsBoard(sorted, allUsers, author, authorName, pageList,
                       Board(pageList, PageCount(|sorted|), PageOf(sorted, pageList), FirstRank(sorted, authorName).value, AuthorPoints(allUsers, author).value))
  {
  }

  // ---------------------------------------------------------------------
  // Reputation points

  /** Who asks for a user's data to be deleted. */
  datatype Requester = DiscordDeletedUser | Owner | User | UserStrict

  /** What is stored per user; a user with nothing stored has the
      defaults `points = 0`, `mention = True`. */
  datatype UserData = UserData(points: int, mention: bool)

  const DefaultUserData := UserData(0, true)

  /** What `rep` answers. */
  datatype RepReply =
    | RobotsRefused
    | SelfRefused
    | Received(mentioned: bool, reps: int, plural: bool)

  class LeaderBoard {
    var users: map<UserId, UserData>

    constructor ()
      ensures users == map[]
    {
      users := map[];
    }

    /** The stored data of a user, or the defaults. */
    function Data(user: UserId): UserData
      reads this
    {
      if user in users then users[user] else DefaultUserData
    }

    /** `repset mention` (leaderboard/leaderboard.py:71-78): whether the
        author is mentioned when given a point; the points stay. */
    method SetMention(author: UserId, mention: bool)
      modifies this
      ensures users == old(users)[author := old(Data(author)).(mention := mention)]
      ensures Data(author).points == old(Data(author)).points
    {
      users := users[author := Data(author).(mention := mention)];
    }

    /** `_give_rep` (leaderboard/leaderboard.py:80-92): one more point,
        "point" in the plural iff the new total is above one. */
    method GiveRep(user: UserId) returns (reply: RepReply)
      modifies this
      ensures users == old(users)[user := old(Data(user)).(points := old(Data(user)).points + 1)]
      ensures reply == Received(old(Data(user)).mention, old(Data(user)).points + 1, old(Data(user)).points + 1 > 1)
    {
      var userPoints := Data(user).points;
      users := users[user := Data(user).(points := userPoints + 1)];
      reply := Received(Data(user).mention, userPoints + 1, userPoints + 1 > 1);
    }

    /** `rep` (leaderboard/leaderboard.py:45-64): bots and the author
        themself are refused, and the author's cooldown is then reset. */
    method Rep(author: UserId, user: UserId, userIsBot: bool) returns (reply: RepReply, resetCooldown: bool)
      modifies this
      ensures userIsBot ==> reply == RobotsRefused && resetCooldown && users == old(users)
      ensures !userIsBot && user == author ==> reply == SelfRefused && resetCooldown && users == old(users)
      ensures !userIsBot && user != author ==>
        && !resetCooldown
        && users == old(users)[user := old(Data(user)).(points := old(Data(user)).points + 1)]
        && reply == Received(old(Data(user)).mention, old(Data(user)).points + 1, old(Data(user)).points + 1 > 1)
    {
      if userIsBot {
        return RobotsRefused, true;
      }
      if user == author {
        return SelfRefused, true;
      }
      reply := GiveRep(user);
      resetCooldown := false;
    }

    /** `red_delete_data_for_user` (leaderboard/leaderboard.py:21-28): the
        test `requester == ("discord_deleted_user" or "user_strict")`
        compares with the first string only. */
    method DeleteDataForUser(requester: Requester, user: UserId)
      modifies this
      ensures requester == DiscordDeletedUser ==> users == old(users) - {user}
      ensures requester != DiscordDeletedUser ==> users == old(users)
    {
      if requester == DiscordDeletedUser {
        users := users - {user};
      }
    }
  }
}
