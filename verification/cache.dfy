/** The cache-aside rules of the request handlers, stated on a value of the two tables.
    Each handler is a function from the tables before the request (and the remote answer,
    when the handler fetches) to the tables after it and what is sent back. */
module CacheAside {
  import opened Records
  import Decimal

  /** The local store: `users` keyed by its primary key, `posts` in insertion order. */
  datatype Tables = Tables(users: map<int, User>, posts: seq<PostRow>)

  /** What the populate handlers send back: `{ exists: b }`, a 500 error, or nothing. */
  datatype Reply = Exists(existed: bool) | InternalError | NoReply

  /** What the user-detail page sends back: 404, `{ user, posts }`, or a 500 error. */
  datatype Detail = NotFound | Found(user: User, posts: seq<RemotePost>) | DetailError

  /** The downloaded workbook, reduced to its file name and the rows written to its sheet. */
  datatype Download = Download(fileName: string, rows: seq<PostRow>)

  /** What one successful population of a key fetched, and the annotation it was tagged with. */
  datatype Population = Population(fetched: seq<RemotePost>, company: Option<string>)

  // ---------------------------------------------------------------------------------------
  // Queries on the posts table

  /** `SELECT * FROM posts WHERE userId = key`: the rows of `key`, in insertion order. */
  function PostRowsFor(posts: seq<PostRow>, key: int): (r: seq<PostRow>)
    ensures |r| <= |posts|
    ensures forall i :: 0 <= i < |r| ==> r[i].userId == key && r[i] in posts
  {
    if posts == [] then []
    else
      var last := posts[|posts| - 1];
      PostRowsFor(posts[..|posts| - 1], key) + (if last.userId == key then [last] else [])
  }

  /** The existence probe: some row of `posts` belongs to `key`. */
  predicate HasPosts(posts: seq<PostRow>, key: int)
  {
    exists i :: 0 <= i < |posts| && posts[i].userId == key
  }

  lemma {:induction false} SelectionOfAppend(a: seq<PostRow>, b: seq<PostRow>, key: int)
    ensures PostRowsFor(a + b, key) == PostRowsFor(a, key) + PostRowsFor(b, key)
    decreases |b|
  {
    if b == [] {
      assert a + b == a;
    } else {
      assert (a + b)[..|a + b| - 1] == a + b[..|b| - 1];
      SelectionOfAppend(a, b[..|b| - 1], key);
    }
  }

  /** The selection holds exactly the stored rows that belong to `key`. */
  lemma {:induction false} SelectionMembers(posts: seq<PostRow>, key: int, row: PostRow)
    ensures row in PostRowsFor(posts, key) <==> row in posts && row.userId == key
    decreases |posts|
  {
    if posts != [] {
      var init := posts[..|posts| - 1];
      assert posts == init + [posts[|posts| - 1]];
      SelectionMembers(init, key, row);
    }
  }

  /** The existence probe answers yes exactly when the selection is non-empty. */
  lemma {:induction false} HasPostsIffSelected(posts: seq<PostRow>, key: int)
    ensures HasPosts(posts, key) <==> PostRowsFor(posts, key) != []
    decreases |posts|
  {
    if posts != [] {
      var init := posts[..|posts| - 1];
      HasPostsIffSelected(init, key);
      if HasPosts(init, key) {
        var i :| 0 <= i < |init| && init[i].userId == key;
        assert posts[i].userId == key;
      }
      if HasPosts(posts, key) && posts[|posts| - 1].userId != key {
        var i :| 0 <= i < |posts| && posts[i].userId == key;
        assert init[i].userId == key;
      }
    }
  }

  // ---------------------------------------------------------------------------------------
  // Tagging fetched posts

  /** The row inserted for one fetched post: the requested key, the post's title and body,
      and the caller's annotation (not the post's own `userId`). */
  function TagRow(key: int, p: RemotePost, company: Option<string>): PostRow
  {
    PostRow(key, p.title, p.body, company)
  }

  /** The rows inserted for a fetched collection, one per post, in the collection's order. */
  function TagPosts(key: int, fetched: seq<RemotePost>, company: Option<string>): (rows: seq<PostRow>)
    ensures |rows| == |fetched|
    ensures forall i :: 0 <= i < |rows| ==> rows[i].userId == key && rows[i].company == company
    decreases |fetched|
  {
    if fetched == [] then []
    else TagPosts(key, fetched[..|fetched| - 1], company) + [TagRow(key, fetched[|fetched| - 1], company)]
  }

  /** One row per fetched post, in order; each carries the key, the post's title and body,
      and exactly the caller's annotation. */
  lemma {:induction false} TagPostsAt(key: int, fetched: seq<RemotePost>, company: Option<string>)
    ensures |TagPosts(key, fetched, company)| == |fetched|
    ensures forall i :: 0 <= i < |fetched| ==>
      TagPosts(key, fetched, company)[i] == PostRow(key, fetched[i].title, fetched[i].body, company)
    decreases |fetched|
  {
    if fetched != [] {
      TagPostsAt(key, fetched[..|fetched| - 1], company);
    }
  }

  /** Selecting from freshly tagged rows: all of them for `key`, none for any other key. */
  lemma {:induction false} SelectionOfTagged(key: int, fetched: seq<RemotePost>, company: Option<string>, k: int)
    ensures PostRowsFor(TagPosts(key, fetched, company), k) == if k == key then TagPosts(key, fetched, company) else []
    decreases |fetched|
  {
    if fetched != [] {
      var rows := TagPosts(key, fetched, company);
      var init := fetched[..|fetched| - 1];
      assert rows[..|rows| - 1] == TagPosts(key, init, company);
      SelectionOfTagged(key, init, company, k);
    }
  }

  // ---------------------------------------------------------------------------------------
  // POST /api/addPost/:userId?company=...

  /** The handler as written: a hit answers `{ exists: true }`; a miss fetches, inserts one
      tagged row per fetched post and answers `{ exists: false }`; a failed fetch writes
      nothing and, since the promise chain has no `catch`, answers nothing. */
  function PopulatePostsAsWritten(t: Tables, key: int, company: Option<string>, remote: Remote<seq<RemotePost>>): (res: (Tables, Reply))
    ensures res.0 == PopulatePosts(t, key, company, remote).0
    ensures res.1 == NoReply <==> !HasPosts(t.posts, key) && remote.Fail?
  {
    if HasPosts(t.posts, key) then (t, Exists(true))
    else match remote
      case Fail => (t, NoReply)
      case Ok(fetched) => (t.(posts := t.posts + TagPosts(key, fetched, company)), Exists(false))
  }

  /** The handler with a failed fetch answered by a 500 error, as every other handler does. */
  function PopulatePosts(t: Tables, key: int, company: Option<string>, remote: Remote<seq<RemotePost>>): (res: (Tables, Reply))
    ensures res.0.users == t.users
    ensures res.1 == Exists(true) <==> HasPosts(t.posts, key)
    ensures res.1 == Exists(false) <==> !HasPosts(t.posts, key) && remote.Ok?
    ensures res.0 != t ==> res.1 == Exists(false)
  {
    if HasPosts(t.posts, key) then (t, Exists(true))
    else match remote
      case Fail => (t, InternalError)
      case Ok(fetched) => (t.(posts := t.posts + TagPosts(key, fetched, company)), Exists(false))
  }

  /** The two differ only in the reply to a failed fetch on a miss: no reply at all. */
  lemma AsWrittenLeavesFailureUnanswered(t: Tables, key: int, company: Option<string>, remote: Remote<seq<RemotePost>>)
    ensures PopulatePostsAsWritten(t, key, company, remote).0 == PopulatePosts(t, key, company, remote).0
    ensures PopulatePostsAsWritten(t, key, company, remote).1 != PopulatePosts(t, key, company, remote).1
        <==> !HasPosts(t.posts, key) && remote.Fail?
    ensures !HasPosts(t.posts, key) && remote.Fail? ==>
      PopulatePostsAsWritten(t, key, company, remote).1 == NoReply
  {
  }

  /** A hit reports `exists: true`, ignores the remote answer and changes nothing. */
  lemma PopulatePostsHit(t: Tables, key: int, company: Option<string>, remote: Remote<seq<RemotePost>>)
    requires HasPosts(t.posts, key)
    ensures PopulatePosts(t, key, company, remote) == (t, Exists(true))
  {
  }

  /** A miss appends the fetched collection, tagged, after the existing rows; afterwards the
      rows of `key` are exactly that collection, tagged, in its order. */
  lemma PopulatePostsMiss(t: Tables, key: int, company: Option<string>, fetched: seq<RemotePost>)
    requires !HasPosts(t.posts, key)
    ensures var (t', reply) := PopulatePosts(t, key, company, Ok(fetched));
      && reply == Exists(false)
      && t'.users == t.users
      && t'.posts == t.posts + TagPosts(key, fetched, company)
      && PostRowsFor(t'.posts, key) == TagPosts(key, fetched, company)
  {
    HasPostsIffSelected(t.posts, key);
    SelectionOfAppend(t.posts, TagPosts(key, fetched, company), key);
    SelectionOfTagged(key, fetched, company, key);
  }

  /** After a miss, every stored row of `key` carries exactly the caller's annotation. */
  lemma PopulatePostsTagging(t: Tables, key: int, company: Option<string>, remote: Remote<seq<RemotePost>>)
    requires !HasPosts(t.posts, key)
    ensures forall row :: row in PostRowsFor(PopulatePosts(t, key, company, remote).0.posts, key) ==>
      row.userId == key && row.company == company
  {
    if remote.Ok? {
      PopulatePostsMiss(t, key, company, remote.value);
      TagPostsAt(key, remote.value, company);
    } else {
      HasPostsIffSelected(t.posts, key);
    }
  }

  /** Population for `key` leaves the users table and the rows of every other key alone. */
  lemma PopulatePostsFrame(t: Tables, key: int, company: Option<string>, remote: Remote<seq<RemotePost>>, k: int)
    requires k != key
    ensures PopulatePosts(t, key, company, remote).0.users == t.users
    ensures PostRowsFor(PopulatePosts(t, key, company, remote).0.posts, k) == PostRowsFor(t.posts, k)
  {
    if !HasPosts(t.posts, key) && remote.Ok? {
      var rows := TagPosts(key, remote.value, company);
      SelectionOfAppend(t.posts, rows, k);
      SelectionOfTagged(key, remote.value, company, k);
      assert PostRowsFor(t.posts, k) + [] == PostRowsFor(t.posts, k);
    }
  }

  /** A failed fetch writes nothing: the key is still uncached afterwards. */
  lemma PopulatePostsRemoteFailure(t: Tables, key: int, company: Option<string>)
    requires !HasPosts(t.posts, key)
    ensures PopulatePosts(t, key, company, Fail) == (t, InternalError)
    ensures !HasPosts(PopulatePosts(t, key, company, Fail).0.posts, key)
  {
  }

  /** After populating with a non-empty collection, a second request for the key is a hit
      that changes nothing, whatever its annotation and whatever the remote would answer. */
  lemma PopulatePostsIdempotent(t: Tables, key: int, company: Option<string>, fetched: seq<RemotePost>,
                                company2: Option<string>, remote2: Remote<seq<RemotePost>>)
    requires !HasPosts(t.posts, key) && fetched != []
    ensures var t' := PopulatePosts(t, key, company, Ok(fetched)).0;
      PopulatePosts(t', key, company2, remote2) == (t', Exists(true))
  {
    var t' := PopulatePosts(t, key, company, Ok(fetched)).0;
    TagPostsAt(key, fetched, company);
    assert t'.posts[|t.posts|].userId == key;
  }

  /** Populating with an empty collection leaves the key uncached: the next request for it
      is a miss again and fetches anew. */
  lemma PopulatePostsEmptyRefetches(t: Tables, key: int, company: Option<string>,
                                    company2: Option<string>, remote2: Remote<seq<RemotePost>>)
    requires !HasPosts(t.posts, key)
    ensures PopulatePosts(t, key, company, Ok([])) == (t, Exists(false))
    ensures PopulatePosts(PopulatePosts(t, key, company, Ok([])).0, key, company2, remote2)
         == PopulatePosts(t, key, company2, remote2)
    ensures remote2.Ok? ==> PopulatePosts(t, key, company2, remote2).1 == Exists(false)
  {
    assert t.posts + TagPosts(key, [], company) == t.posts;
  }

  // ---------------------------------------------------------------------------------------
  // All-or-nothing population

  /** For every key, the stored rows are either none, or exactly the collection fetched when
      the key was populated, tagged with the annotation of that request. */
  ghost predicate AllOrNothing(posts: seq<PostRow>, populated: map<int, Population>)
  {
    forall k :: PostRowsFor(posts, k) ==
      if k in populated then TagPosts(k, populated[k].fetched, populated[k].company) else []
  }

  /** The record of populations after a request: a miss with a successful fetch records it. */
  ghost function Repopulated(populated: map<int, Population>, posts: seq<PostRow>, key: int,
                             company: Option<string>, remote: Remote<seq<RemotePost>>): map<int, Population>
  {
    if !HasPosts(posts, key) && remote.Ok? then populated[key := Population(remote.value, company)]
    else populated
  }

  lemma AllOrNothingInitially()
    ensures AllOrNothing([], map[])
  {
  }

  /** Each population keeps every key either uncached or completely cached. */
  lemma PopulatePostsKeepsAllOrNothing(t: Tables, populated: map<int, Population>, key: int,
                                       company: Option<string>, remote: Remote<seq<RemotePost>>)
    requires AllOrNothing(t.posts, populated)
    ensures AllOrNothing(PopulatePosts(t, key, company, remote).0.posts,
                         Repopulated(populated, t.posts, key, company, remote))
  {
    if !HasPosts(t.posts, key) && remote.Ok? {
      var posts' := PopulatePosts(t, key, company, remote).0.posts;
      var populated' := Repopulated(populated, t.posts, key, company, remote);
      forall k
        ensures PostRowsFor(posts', k) ==
          if k in populated' then TagPosts(k, populated'[k].fetched, populated'[k].company) else []
      {
        if k == key {
          PopulatePostsMiss(t, key, company, remote.value);
        } else {
          PopulatePostsFrame(t, key, company, remote, k);
        }
      }
    }
  }

  /** A key with any stored row holds the complete tagged collection of its population. */
  lemma CachedKeyIsComplete(posts: seq<PostRow>, populated: map<int, Population>, key: int)
    requires AllOrNothing(posts, populated)
    requires HasPosts(posts, key)
    ensures key in populated
    ensures PostRowsFor(posts, key) == TagPosts(key, populated[key].fetched, populated[key].company)
  {
    HasPostsIffSelected(posts, key);
  }

  // ---------------------------------------------------------------------------------------
  // POST /api/addUser/:id

  /** Every user row sits under its own id. */
  ghost predicate KeyedById(users: map<int, User>)
  {
    forall k :: k in users ==> users[k].id == k
  }

  /** A hit answers `{ exists: true }`. A miss fetches the user, flattens it and inserts it
      under the id the remote record carries; a failed fetch, or an insert that collides
      with an existing primary key, answers a 500 error and writes nothing. */
  function EnsureUser(t: Tables, key: int, remote: Remote<RemoteUser>): (res: (Tables, Reply))
    ensures res.0.posts == t.posts
    ensures res.1 == Exists(true) <==> key in t.users
    ensures res.0 != t ==>
      res.1 == Exists(false) && remote.Ok? && res.0.users == t.users[remote.value.id := Flatten(remote.value)]
    ensures KeyedById(t.users) ==> KeyedById(res.0.users)
  {
    if key in t.users then (t, Exists(true))
    else match remote
      case Fail => (t, InternalError)
      case Ok(u) =>
        if u.id in t.users then (t, InternalError)
        else (t.(users := t.users[u.id := Flatten(u)]), Exists(false))
  }

  /** The outcomes of "ensure user cached", case by case; the posts table never changes. */
  lemma EnsureUserCases(t: Tables, key: int, remote: Remote<RemoteUser>)
    ensures var (t', reply) := EnsureUser(t, key, remote);
      && t'.posts == t.posts
      && (key in t.users ==> t' == t && reply == Exists(true))
      && (key !in t.users && remote.Fail? ==> t' == t && reply == InternalError)
      && (key !in t.users && remote.Ok? && remote.value.id in t.users ==> t' == t && reply == InternalError)
      && (key !in t.users && remote.Ok? && remote.value.id !in t.users ==>
            reply == Exists(false) && t'.users == t.users[remote.value.id := Flatten(remote.value)])
  {
  }

  /** Inserting under the remote record's own id keeps every row under its own id. */
  lemma EnsureUserKeepsKeyedById(t: Tables, key: int, remote: Remote<RemoteUser>)
    requires KeyedById(t.users)
    ensures KeyedById(EnsureUser(t, key, remote).0.users)
  {
  }

  /** With a remote record that carries the requested id, a miss followed by a second request
      answers `exists: false` then `exists: true`, and the stored row is the flattened record
      after both. */
  lemma EnsureUserIdempotent(t: Tables, key: int, u: RemoteUser, remote2: Remote<RemoteUser>)
    requires key !in t.users && u.id == key
    ensures var (t1, reply1) := EnsureUser(t, key, Ok(u));
      var (t2, reply2) := EnsureUser(t1, key, remote2);
      && reply1 == Exists(false) && reply2 == Exists(true)
      && t2 == t1 && key in t2.users && t2.users[key] == Flatten(u)
  {
  }

  /** A remote record whose id differs from the requested key is stored under its own id, so
      the requested key stays uncached and the next request for it fetches again. */
  lemma EnsureUserStoresUnderRemoteId(t: Tables, key: int, u: RemoteUser)
    requires key !in t.users && u.id != key && u.id !in t.users
    ensures var (t1, reply1) := EnsureUser(t, key, Ok(u));
      && reply1 == Exists(false)
      && key !in t1.users
      && u.id in t1.users && t1.users[u.id] == Flatten(u)
  {
  }

  // ---------------------------------------------------------------------------------------
  // GET /user/:userId

  /** A lookup of the cached user, paired with the posts fetched live; the posts table is
      never consulted and an absent user is never fetched. */
  function LookupDetail(t: Tables, key: int, live: Remote<seq<RemotePost>>): (d: Detail)
    ensures d.NotFound? <==> key !in t.users
    ensures d.Found? <==> key in t.users && live.Ok?
    ensures d.Found? ==> d.user == t.users[key] && live == Ok(d.posts)
  {
    if key !in t.users then NotFound
    else match live
      case Fail => DetailError
      case Ok(ps) => Found(t.users[key], ps)
  }

  /** The detail view does not depend on the cached posts: replacing the posts table by any
      other leaves the answer unchanged. */
  lemma DetailIgnoresPostCache(t: Tables, key: int, live: Remote<seq<RemotePost>>, other: seq<PostRow>)
    ensures LookupDetail(t.(posts := other), key, live) == LookupDetail(t, key, live)
  {
  }

  // ---------------------------------------------------------------------------------------
  // GET /api/downloadExcel/:userId

  /** The suggested file name: `posts_<key>.xlsx`. */
  function ExportFileName(key: int): (name: string)
    ensures KeyOfFileName(name) == Some(key)
  {
    var digits := Decimal.IntToString(key);
    var name := "posts_" + digits + ".xlsx";
    assert name[..6] == "posts_";
    assert name[|name| - 5..] == ".xlsx";
    assert name[6..|name| - 5] == digits;
    Decimal.ParseIntegerOfIntToString(key);
    name
  }

  /** Reads the key back out of a suggested file name. */
  function KeyOfFileName(name: string): Option<int>
  {
    if |name| >= 11 && name[..6] == "posts_" && name[|name| - 5..] == ".xlsx"
    then Decimal.ParseInteger(name[6..|name| - 5])
    else None
  }

  /** The file name names the key it was built from, so different keys get different names. */
  lemma FileNameNamesKey(key: int, other: int)
    ensures KeyOfFileName(ExportFileName(key)) == Some(key)
    ensures ExportFileName(key) == ExportFileName(other) ==> key == other
  {
  }

  /** The export of a key: its stored rows in insertion order (possibly none) and its name. */
  function ExportSelection(t: Tables, key: int): (d: Download)
    ensures KeyOfFileName(d.fileName) == Some(key)
    ensures forall i :: 0 <= i < |d.rows| ==> d.rows[i].userId == key && d.rows[i] in t.posts
    ensures d.rows == [] <==> !HasPosts(t.posts, key)
  {
    HasPostsIffSelected(t.posts, key);
    Download(ExportFileName(key), PostRowsFor(t.posts, key))
  }

  /** The exported rows are exactly the stored rows of `key`; an uncached key exports an
      empty sheet rather than failing. */
  lemma ExportExact(t: Tables, key: int, row: PostRow)
    ensures row in ExportSelection(t, key).rows <==> row in t.posts && row.userId == key
    ensures ExportSelection(t, key).rows == [] <==> !HasPosts(t.posts, key)
  {
    SelectionMembers(t.posts, key, row);
    HasPostsIffSelected(t.posts, key);
  }

  /** Exporting right after populating a key with N fetched posts gives exactly N rows: the
      fetched posts, in order, tagged with the key and the annotation. */
  lemma ExportAfterPopulate(t: Tables, key: int, company: Option<string>, fetched: seq<RemotePost>)
    requires !HasPosts(t.posts, key)
    ensures var rows := ExportSelection(PopulatePosts(t, key, company, Ok(fetched)).0, key).rows;
      && |rows| == |fetched|
      && forall i :: 0 <= i < |rows| ==>
           rows[i] == PostRow(key, fetched[i].title, fetched[i].body, company)
  {
    PopulatePostsMiss(t, key, company, fetched);
    TagPostsAt(key, fetched, company);
  }
}
