/** The local store and the request handlers that read and populate it. */
module CacheStore {
  import opened Records
  import opened CacheAside

  /** The in-memory database: the `users` table keyed by its primary key and the `posts`
      table in insertion order. The ghost `populated` records, per key, what its one
      successful population fetched. */
  class Store {
    var users: map<int, User>
    var posts: seq<PostRow>
    ghost var populated: map<int, Population>

    ghost predicate Valid()
      reads this
    {
      KeyedById(users) && AllOrNothing(posts, populated)
    }

    function Snapshot(): Tables
      reads this
    {
      Tables(users, posts)
    }

    /** Both tables start empty. */
    constructor ()
      ensures Valid()
      ensures users == map[] && posts == [] && populated == map[]
    {
      users := map[];
      posts := [];
      populated := map[];
      AllOrNothingInitially();
    }

    /** `POST /api/addPost/:userId`: on a miss, one INSERT per fetched post, in order. */
    method AddPost(key: int, company: Option<string>, remote: Remote<seq<RemotePost>>) returns (reply: Reply)
      requires Valid()
      modifies this
      ensures Valid()
      ensures (Snapshot(), reply) == PopulatePosts(old(Snapshot()), key, company, remote)
      ensures populated == Repopulated(old(populated), old(posts), key, company, remote)
    {
      if HasPosts(posts, key) {
        reply := Exists(true);
        return;
      }
      match remote {
        case Fail =>
          reply := InternalError;
        case Ok(fetched) =>
          var i := 0;
          while i < |fetched|
            invariant 0 <= i <= |fetched|
            invariant users == old(users) && populated == old(populated)
            invariant posts == old(posts) + TagPosts(key, fetched[..i], company)
          {
            assert fetched[..i + 1][..i] == fetched[..i];
            posts := posts + [TagRow(key, fetched[i], company)];
            i := i + 1;
          }
          assert fetched[..i] == fetched;
          PopulatePostsKeepsAllOrNothing(old(Snapshot()), populated, key, company, remote);
          populated := populated[key := Population(fetched, company)];
          reply := Exists(false);
      }
    }

    /** `POST /api/addUser/:id`: on a miss, one INSERT of the flattened remote user. */
    method AddUser(key: int, remote: Remote<RemoteUser>) returns (reply: Reply)
      requires Valid()
      modifies this
      ensures Valid()
      ensures (Snapshot(), reply) == EnsureUser(old(Snapshot()), key, remote)
      ensures populated == old(populated)
    {
      if key in users {
        reply := Exists(true);
        return;
      }
      match remote {
        case Fail =>
          reply := InternalError;
        case Ok(u) =>
          if u.id in users {
            reply := InternalError;  // UNIQUE constraint failed: users.id
          } else {
            users := users[u.id := Flatten(u)];
            reply := Exists(false);
          }
      }
    }

    /** `GET /user/:userId`: reads the users table only. */
    method UserDetail(key: int, live: Remote<seq<RemotePost>>) returns (d: Detail)
      ensures d == LookupDetail(Snapshot(), key, live)
      ensures d.NotFound? <==> key !in users
    {
      if key !in users {
        return NotFound;
      }
      match live {
        case Fail =>
          d := DetailError;
        case Ok(ps) =>
          d := Found(users[key], ps);
      }
    }

    /** `GET /api/downloadExcel/:userId`: the rows handed to the sheet writer and the name
        of the attachment. */
    method DownloadExcel(key: int) returns (d: Download)
      ensures d == ExportSelection(Snapshot(), key)
      ensures forall row :: row in d.rows <==> row in posts && row.userId == key
    {
      d := Download(ExportFileName(key), PostRowsFor(posts, key));
      forall row
        ensures row in d.rows <==> row in posts && row.userId == key
      {
        SelectionMembers(posts, key, row);
      }
    }
  }

  /** Two requests for the same user, the remote record carrying the requested id: the
      first caches it, the second finds it, and the stored row is unchanged. */
  method AddUserTwice(s: Store, key: int, u: RemoteUser, remote2: Remote<RemoteUser>)
    returns (reply1: Reply, reply2: Reply)
    requires s.Valid() && key !in s.users && u.id == key
    modifies s
    ensures s.Valid()
    ensures reply1 == Exists(false) && reply2 == Exists(true)
    ensures s.users == old(s.users)[key := Flatten(u)] && s.posts == old(s.posts)
  {
    reply1 := s.AddUser(key, Ok(u));
    reply2 := s.AddUser(key, remote2);
  }

  /** Populating a key's posts, then opening its detail page: the page shows the live posts,
      not the cached ones, and the export shows the cached ones. */
  method DetailAfterPopulate(s: Store, key: int, company: Option<string>, fetched: seq<RemotePost>,
                             live: seq<RemotePost>)
    returns (d: Detail, x: Download)
    requires s.Valid() && key in s.users && !HasPosts(s.posts, key)
    modifies s
    ensures d == Found(old(s.users)[key], live)
    ensures x.rows == TagPosts(key, fetched, company)
  {
    var _ := s.AddPost(key, company, Ok(fetched));
    PopulatePostsMiss(old(s.Snapshot()), key, company, fetched);
    d := s.UserDetail(key, Ok(live));
    x := s.DownloadExcel(key);
  }
}
