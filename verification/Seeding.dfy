/** The benchmark's archive catalog (mixed.py): rows generated batch by batch, whose ids and
    references come from nested integer divisions. */
module Seeding {
  import opened Basics

  function UserId(i: int): int { 2_000_000 + i }

  function PostId(i: int): int { 20_000_000_000_000 + i }

  function MediaId(i: int): int { 30_000_000_000_000 + i }

  // ---- The rows -----------------------------------------------------------------------------

  // Users and posts are numbered from 0, media from 1.
  function OwnerOfPost(i: nat, postsPerUser: nat): int
    requires postsPerUser > 0
  {
    UserId(i / postsPerUser)
  }

  function OwnerOfMedia(i: nat, perUser: nat): int
    requires perUser > 0 && i >= 1
  {
    UserId((i - 1) / perUser)
  }

  function PostOfMedia(i: nat): int
    requires i >= 1
  {
    PostId((i - 1) / 10)
  }

  // The ids of the first n users.
  ghost function Users(n: nat): set<int> {
    if n == 0 then {} else Users(n - 1) + {UserId(n - 1)}
  }

  // The first n posts, by id, with their owners.
  ghost function Posts(n: nat, postsPerUser: nat): map<int, int>
    requires postsPerUser > 0
  {
    if n == 0 then map[] else Posts(n - 1, postsPerUser)[PostId(n - 1) := OwnerOfPost(n - 1, postsPerUser)]
  }

  // The first n media, with their owners. So are the file paths, by media and owner.
  ghost function Media(n: nat, perUser: nat): map<int, int>
    requires perUser > 0
  {
    if n == 0 then map[] else Media(n - 1, perUser)[MediaId(n) := OwnerOfMedia(n, perUser)]
  }

  // The first n media, each with its post.
  ghost function Links(n: nat): set<(int, int)> {
    if n == 0 then {} else Links(n - 1) + {(PostOfMedia(n), MediaId(n))}
  }

  lemma {:induction false} UsersAre(n: nat)
    ensures forall id :: id in Users(n) <==> UserId(0) <= id < UserId(n)
    ensures |Users(n)| == n
  {
    if n > 0 { UsersAre(n - 1); }
  }

  lemma {:induction false} PostsAre(n: nat, postsPerUser: nat)
    requires postsPerUser > 0
    ensures forall id :: id in Posts(n, postsPerUser) <==> PostId(0) <= id < PostId(n)
    ensures |Posts(n, postsPerUser)| == n
  {
    if n > 0 { PostsAre(n - 1, postsPerUser); }
  }

  lemma {:induction false} PostIs(n: nat, postsPerUser: nat, i: nat)
    requires postsPerUser > 0 && i < n
    ensures PostId(i) in Posts(n, postsPerUser)
    ensures Posts(n, postsPerUser)[PostId(i)] == OwnerOfPost(i, postsPerUser)
  {
    if i < n - 1 { PostIs(n - 1, postsPerUser, i); }
  }

  lemma {:induction false} MediaAre(n: nat, perUser: nat)
    requires perUser > 0
    ensures forall id :: id in Media(n, perUser) <==> MediaId(1) <= id <= MediaId(n)
    ensures |Media(n, perUser)| == n
  {
    if n > 0 { MediaAre(n - 1, perUser); }
  }

  lemma {:induction false} MediumIs(n: nat, perUser: nat, i: nat)
    requires perUser > 0 && 1 <= i <= n
    ensures MediaId(i) in Media(n, perUser)
    ensures Media(n, perUser)[MediaId(i)] == OwnerOfMedia(i, perUser)
  {
    if i < n { MediumIs(n - 1, perUser, i); }
  }

  // The links are those of the media, one by one.
  lemma {:induction false} LinkedAt(n: nat, post: int, id: int)
    ensures (post, id) in Links(n) <==>
            MediaId(1) <= id <= MediaId(n) && post == PostOfMedia(id - MediaId(0))
  {
    hide PostOfMedia;
    if n > 0 { LinkedAt(n - 1, post, id); }
  }

  lemma {:induction false} LinksCount(n: nat)
    ensures |Links(n)| == n
  {
    hide PostOfMedia;
    if n > 0 {
      LinksCount(n - 1);
      LinkedAt(n - 1, PostOfMedia(n), MediaId(n));
    }
  }

  // ---- Arithmetic -----------------------------------------------------------------------------

  lemma {:induction false} LeastProduct(a: int, b: int, d: int)
    requires a <= b && d >= 0
    ensures a * d <= b * d
  {
  }

  lemma {:induction false} Quotient(x: int, d: int)
    requires d > 0
    ensures x == x / d * d + x % d && 0 <= x % d < d
  {
  }

  lemma {:induction false} QuotientIs(x: int, d: int, q: int, r: int)
    requires x == q * d + r && 0 <= r < d
    ensures x / d == q
  {
    Quotient(x, d);
    Apart(x / d, x % d, q, r, d);
  }

  lemma {:induction false} Apart(p: int, s: int, q: int, r: int, d: int)
    requires p * d + s == q * d + r && 0 <= r < d && 0 <= s < d
    ensures p == q
  {
    assert (p - q) * d == r - s;
    if p > q { LeastProduct(1, p - q, d); }
    if p < q { LeastProduct(p - q, -1, d); }
  }

  lemma {:induction false} QuotientBelow(i: nat, d: nat, k: nat)
    requires d > 0 && i < k * d
    ensures i / d < k
  {
    Quotient(i, d);
    if i / d >= k { LeastProduct(k, i / d, d); }
  }

  /** Dividing by ten and then by the posts of a user is dividing by the media of a user. */
  lemma {:induction false} NestedDivision(x: nat, postsPerUser: nat)
    requires postsPerUser > 0
    ensures x / 10 / postsPerUser == x / (10 * postsPerUser)
  {
    var q, r := x / (10 * postsPerUser), x % (10 * postsPerUser);
    Quotient(x, 10 * postsPerUser);
    assert q * (10 * postsPerUser) == q * postsPerUser * 10;
    QuotientIs(x, 10, q * postsPerUser + r / 10, r % 10);
    QuotientIs(x / 10, postsPerUser, q, r / 10);
  }

  // ---- The catalog ----------------------------------------------------------------------------

  /** The tables, with the constraints of their keys: a row is inserted once, and refers to
      rows that are there. */
  class Catalog {
    var users: set<int>
    var posts: map<int, int>
    var media: map<int, int>
    var links: set<(int, int)>
    var files: map<int, int>

    constructor (users: set<int>)
      ensures this.users == users && posts == map[] && media == map[] && links == {} && files == map[]
    {
      this.users, posts, media, links, files := users, map[], map[], {}, map[];
    }

    method InsertUser(id: int)
      requires id !in users
      modifies `users
      ensures users == old(users) + {id}
    {
      users := users + {id};
    }

    method InsertPost(id: int, owner: int)
      requires id !in posts && owner in users
      modifies `posts
      ensures posts == old(posts)[id := owner]
    {
      posts := posts[id := owner];
    }

    method InsertMedia(id: int, owner: int)
      requires id !in media && owner in users
      modifies `media
      ensures media == old(media)[id := owner]
    {
      media := media[id := owner];
    }

    method InsertLink(post: int, id: int)
      requires (post, id) !in links && post in posts && id in media
      modifies `links
      ensures links == old(links) + {(post, id)}
    {
      links := links + {(post, id)};
    }

    method InsertFile(id: int, owner: int)
      requires id !in files && id in media
      modifies `files
      ensures files == old(files)[id := owner]
    {
      files := files[id := owner];
    }

    /** The first rows of each table, and the users that were there before. */
    ghost predicate Holds(others: set<int>, seeded: Seeded)
      reads this
    {
      && users == others + Users(seeded.users) && posts == Posts(seeded.posts, seeded.postsPerUser)
      && media == Media(seeded.media, seeded.perUser) && files == Media(seeded.media, seeded.perUser)
      && links == Links(seeded.media)
    }

    method SeedUsers(ghost others: set<int>, first: nat, last: int)
      requires users == others + Users(first) && first <= last + 1
      requires forall id :: id in others ==> !(UserId(0) <= id <= UserId(last))
      modifies `users
      ensures users == others + Users(last + 1)
    {
      for i := first to last + 1
        invariant users == others + Users(i)
      {
        UsersAre(i);
        InsertUser(UserId(i));
      }
    }

    method SeedPosts(first: nat, last: int, postsPerUser: nat)
      requires postsPerUser > 0 && posts == Posts(first, postsPerUser) && first <= last + 1
      requires forall i: nat :: first <= i <= last ==> OwnerOfPost(i, postsPerUser) in users
      modifies `posts
      ensures posts == Posts(last + 1, postsPerUser)
    {
      for i := first to last + 1
        invariant posts == Posts(i, postsPerUser)
      {
        PostsAre(i, postsPerUser);
        InsertPost(PostId(i), OwnerOfPost(i, postsPerUser));
      }
    }

    method SeedMedia(first: nat, last: nat, perUser: nat)
      requires perUser > 0 && 1 <= first <= last + 1 && media == Media(first - 1, perUser)
      requires forall i: nat :: first <= i <= last ==> OwnerOfMedia(i, perUser) in users
      modifies `media
      ensures media == Media(last, perUser)
    {
      for i := first to last + 1
        invariant media == Media(i - 1, perUser)
      {
        MediaAre(i - 1, perUser);
        InsertMedia(MediaId(i), OwnerOfMedia(i, perUser));
      }
    }

    method SeedLinks(first: nat, last: nat)
      requires 1 <= first <= last + 1 && links == Links(first - 1)
      requires forall i: nat :: first <= i <= last ==> PostOfMedia(i) in posts
      requires forall i: nat :: first <= i <= last ==> MediaId(i) in media
      modifies `links
      ensures links == Links(last)
    {
      hide PostOfMedia;
      for i := first to last + 1
        invariant links == Links(i - 1)
      {
        LinkedAt(i - 1, PostOfMedia(i), MediaId(i));
        InsertLink(PostOfMedia(i), MediaId(i));
      }
    }

    method SeedFiles(first: nat, last: nat, perUser: nat)
      requires perUser > 0 && 1 <= first <= last + 1 && files == Media(first - 1, perUser)
      requires forall i: nat :: first <= i <= last ==> MediaId(i) in media
      modifies `files
      ensures files == Media(last, perUser)
    {
      for i := first to last + 1
        invariant files == Media(i - 1, perUser)
      {
        MediaAre(i - 1, perUser);
        InsertFile(MediaId(i), OwnerOfMedia(i, perUser));
      }
    }

    /** One batch, from the media first to last: of whole users, so no row of it was there and
        every row it refers to is. */
    method SeedBatch(ghost others: set<int>, ghost done: Seeded, ghost next: Seeded, first: nat, last: nat,
                     perUser: nat)
      requires Whole(done) && Whole(next) && done.users < next.users
      requires perUser == done.perUser == next.perUser && first == done.media + 1 && last == next.media
      requires Holds(others, done) && forall id :: id in others ==> !(UserId(0) <= id < UserId(next.users))
      modifies this
      ensures Holds(others, next)
    {
      Edges(done, next);
      OwnersSeeded(next);
      hide Whole, Users, Posts, Media, Links, OwnerOfPost, OwnerOfMedia;
      var firstUser, lastUser := (first - 1) / perUser, (last - 1) / perUser;
      var firstPost, lastPost, postsPerUser := (first - 1) / 10, (last - 1) / 10, perUser / 10;
      SeedUsers(others, firstUser, lastUser);
      SeedPosts(firstPost, lastPost, postsPerUser);
      SeedMedia(first, last, perUser);
      SeedReferences(next, first, last, perUser);
    }

    // The links and file paths of a batch, whose posts and media are there.
    method SeedReferences(ghost next: Seeded, first: nat, last: nat, perUser: nat)
      requires Whole(next) && perUser == next.perUser && 1 <= first <= last + 1 && last == next.media
      requires posts == Posts(next.posts, next.postsPerUser) && media == Media(next.media, perUser)
      requires links == Links(first - 1) && files == Media(first - 1, perUser)
      modifies `links, `files
      ensures links == Links(last) && files == Media(last, perUser)
    {
      LinkedSeeded(next);
      SeedLinks(first, last);
      SeedFiles(first, last, perUser);
    }

    /** `seed_catalog`, in a catalog without the rows to be: whatever it is stopped by, whole
        batches are there, and once done the counts are those asserted. */
    method Seed(catalogMedia: nat, catalogUsers: nat, seedBatch: nat, ghost others: set<int>)
      returns (counts: Option<Counts>)
      requires users == others && posts == map[] && media == map[] && links == {} && files == map[]
      requires forall id :: id in others ==> !(UserId(0) <= id < UserId(catalogUsers))
      modifies this
      ensures !Accepted(catalogMedia, catalogUsers, seedBatch) ==>
                counts.None? && users == others && posts == map[] && media == map[] && links == {} && files == map[]
      ensures Accepted(catalogMedia, catalogUsers, seedBatch) ==>
                exists n: nat :: n <= catalogUsers && (counts.Some? ==> n == catalogUsers) &&
                                 Holds(others, SeededTo(n, catalogMedia / catalogUsers / 10))
      ensures counts.Some? ==>
                counts.value == Counts(catalogUsers, catalogMedia / 10, catalogMedia, catalogMedia, catalogMedia)
    {
      if catalogUsers == 0 || catalogMedia % catalogUsers != 0 { return None; }
      var perUser := catalogMedia / catalogUsers;
      if perUser == 0 || perUser % 10 != 0 || seedBatch % perUser != 0 || seedBatch == 0 { return None; }
      ghost var postsPerUser := perUser / 10;
      ghost var n: nat := 0;
      Sizes(catalogMedia, catalogUsers, seedBatch);
      Start(postsPerUser);
      var first := 1;
      while first <= catalogMedia
        invariant n <= catalogUsers && Holds(others, SeededTo(n, postsPerUser))
        invariant if n < catalogUsers then first == SeededTo(n, postsPerUser).media + 1 <= catalogMedia
                  else first > catalogMedia
        decreases catalogUsers - n
      {
        var last := Min(first + seedBatch - 1, catalogMedia);
        var free: bool := *;  // enough space on the disk
        if !free { return None; }
        ghost var next := Min(n + seedBatch / perUser, catalogUsers);
        NextBatch(n, next, catalogMedia, catalogUsers, seedBatch);
        SeedBatch(others, SeededTo(n, postsPerUser), SeededTo(next, postsPerUser), first, last, perUser);
        first, n := first + seedBatch, next;
      }
      counts := CountRows(catalogUsers, others, SeededTo(n, postsPerUser));
    }

    // The counts the run ends with.
    method CountRows(catalogUsers: nat, ghost others: set<int>, ghost seeded: Seeded)
      returns (counts: Option<Counts>)
      requires Holds(others, seeded) && seeded.users == catalogUsers
      requires forall id :: id in others ==> !(UserId(0) <= id < UserId(catalogUsers))
      ensures counts == Some(Counts(seeded.users, seeded.posts, seeded.media, seeded.media, seeded.media))
    {
      UsersAre(catalogUsers);
      PostsAre(seeded.posts, seeded.postsPerUser);
      MediaAre(seeded.media, seeded.perUser);
      LinksCount(seeded.media);
      var inRange := set id | id in users && UserId(0) <= id < UserId(catalogUsers);
      assert inRange == Users(catalogUsers);
      counts := Some(Counts(|inRange|, |posts|, |media|, |links|, |files|));
    }
  }

  // How many rows of each kind are there.
  datatype Rows = Rows(users: nat, posts: nat, media: nat, postsPerUser: nat, perUser: nat)

  type Seeded = rows: Rows | rows.postsPerUser > 0 && rows.perUser > 0 witness Rows(0, 0, 0, 1, 10)

  ghost predicate Whole(seeded: Seeded) {
    && seeded.perUser == 10 * seeded.postsPerUser && seeded.posts == seeded.users * seeded.postsPerUser
    && seeded.media == 10 * seeded.posts && seeded.media == seeded.users * seeded.perUser
  }

  // The rows of the first n users.
  ghost function SeededTo(n: nat, postsPerUser: nat): (seeded: Seeded)
    requires postsPerUser > 0
    ensures Whole(seeded)
  {
    assert n * (10 * postsPerUser) == 10 * (n * postsPerUser);
    Rows(n, n * postsPerUser, 10 * (n * postsPerUser), postsPerUser, 10 * postsPerUser)
  }

  datatype Counts = Counts(users: nat, posts: nat, media: nat, links: nat, files: nat)

  // The sizes that pass the asserts (and divide nothing by zero).
  predicate Accepted(catalogMedia: nat, catalogUsers: nat, seedBatch: nat) {
    && catalogUsers > 0 && catalogMedia % catalogUsers == 0
    && var perUser := catalogMedia / catalogUsers;
       perUser > 0 && perUser % 10 == 0 && seedBatch % perUser == 0 && seedBatch > 0
  }

  // ---- Where batches start and end --------------------------------------------------------

  // What a batch's divisions give.
  lemma {:induction false} Edges(done: Seeded, next: Seeded)
    requires Whole(done) && Whole(next) && done.users < next.users && done.perUser == next.perUser
    ensures done.media / done.perUser == done.users && (next.media - 1) / done.perUser == next.users - 1
    ensures done.media / 10 == done.posts && (next.media - 1) / 10 == next.posts - 1
    ensures done.perUser / 10 == done.postsPerUser == next.postsPerUser
    ensures done.posts < next.posts && done.media < next.media
  {
    var d := done.perUser;
    QuotientIs(done.media, d, done.users, 0);
    assert next.media - 1 == (next.users - 1) * d + (d - 1);
    QuotientIs(next.media - 1, d, next.users - 1, d - 1);
    LeastProduct(done.users + 1, next.users, done.postsPerUser);
  }

  lemma {:induction false} PostOwnerSeeded(next: Seeded, i: nat)
    requires Whole(next) && i < next.posts
    ensures OwnerOfPost(i, next.postsPerUser) in Users(next.users)
  {
    UsersAre(next.users);
    QuotientBelow(i, next.postsPerUser, next.users);
  }

  lemma {:induction false} MediaOwnerIn(users: nat, perUser: nat, i: nat)
    requires perUser > 0 && 1 <= i <= users * perUser
    ensures OwnerOfMedia(i, perUser) in Users(users)
  {
    UsersAre(users);
    QuotientBelow(i - 1, perUser, users);
  }

  lemma {:induction false} MediaOwnerSeeded(next: Seeded, i: nat)
    requires Whole(next) && 1 <= i <= next.media
    ensures OwnerOfMedia(i, next.perUser) in Users(next.users)
  {
    MediaOwnerIn(next.users, next.perUser, i);
  }

  lemma {:induction false} OwnersSeeded(next: Seeded)
    requires Whole(next)
    ensures forall i: nat :: i <= next.posts - 1 ==> OwnerOfPost(i, next.postsPerUser) in Users(next.users)
    ensures forall i: nat :: 1 <= i <= next.media ==> OwnerOfMedia(i, next.perUser) in Users(next.users)
  {
    forall i: nat | i <= next.posts - 1 ensures OwnerOfPost(i, next.postsPerUser) in Users(next.users) {
      PostOwnerSeeded(next, i);
    }
    forall i: nat | 1 <= i <= next.media ensures OwnerOfMedia(i, next.perUser) in Users(next.users) {
      MediaOwnerSeeded(next, i);
    }
  }

  lemma {:induction false} LinkedSeeded(next: Seeded)
    requires Whole(next)
    ensures forall i: nat :: 1 <= i <= next.media ==> PostOfMedia(i) in Posts(next.posts, next.postsPerUser)
    ensures forall i: nat :: 1 <= i <= next.media ==> MediaId(i) in Media(next.media, next.perUser)
  {
    PostsAre(next.posts, next.postsPerUser);
    MediaAre(next.media, next.perUser);
    forall i: nat | 1 <= i <= next.media ensures PostOfMedia(i) in Posts(next.posts, next.postsPerUser) {
      QuotientBelow(i - 1, 10, next.posts);
    }
  }

  lemma {:induction false} Start(postsPerUser: nat)
    requires postsPerUser > 0
    ensures SeededTo(0, postsPerUser) == Rows(0, 0, 0, postsPerUser, 10 * postsPerUser)
  {
  }

  lemma {:induction false} Sizes(catalogMedia: nat, catalogUsers: nat, seedBatch: nat)
    requires Accepted(catalogMedia, catalogUsers, seedBatch)
    ensures var perUser := catalogMedia / catalogUsers;
            && perUser == 10 * (perUser / 10) && perUser / 10 > 0
            && catalogMedia == SeededTo(catalogUsers, perUser / 10).media
            && catalogMedia / 10 == SeededTo(catalogUsers, perUser / 10).posts
            && seedBatch == seedBatch / perUser * perUser && seedBatch / perUser > 0
  {
    var perUser := catalogMedia / catalogUsers;
    Quotient(catalogMedia, catalogUsers);
    Quotient(perUser, 10);
    Quotient(seedBatch, perUser);
  }

  lemma {:induction false} NextBatch(n: nat, next: nat, catalogMedia: nat, catalogUsers: nat, seedBatch: nat)
    requires Accepted(catalogMedia, catalogUsers, seedBatch) && n < catalogUsers
    requires next == Min(n + seedBatch / (catalogMedia / catalogUsers), catalogUsers)
    ensures catalogMedia / catalogUsers / 10 > 0
    ensures var postsPerUser := catalogMedia / catalogUsers / 10;
            var first := SeededTo(n, postsPerUser).media + 1;
            && n < next && Min(first + seedBatch - 1, catalogMedia) == SeededTo(next, postsPerUser).media
            && (if next < catalogUsers
                then first + seedBatch == SeededTo(next, postsPerUser).media + 1 <= catalogMedia
                else first + seedBatch > catalogMedia)
  {
    Sizes(catalogMedia, catalogUsers, seedBatch);
    var perUser := catalogMedia / catalogUsers;
    var step := seedBatch / perUser;
    assert (n + step) * perUser == n * perUser + seedBatch;
    assert SeededTo(n, perUser / 10).media == n * perUser;
    assert SeededTo(next, perUser / 10).media == next * perUser;
    LeastProduct(n + 1, n + step, perUser);
    if n + step < catalogUsers {
      LeastProduct(n + step + 1, catalogUsers, perUser);
    } else {
      LeastProduct(catalogUsers, n + step, perUser);
    }
  }

  // ---- What the rows say ------------------------------------------------------------------

  /** Every post has exactly ten media, with ten consecutive ids. */
  lemma {:induction false} TenMedia(post: nat, n: nat)
    requires 10 * (post + 1) <= n
    ensures forall id :: (PostId(post), id) in Links(n) <==> MediaId(10 * post + 1) <= id <= MediaId(10 * post + 10)
  {
    forall id ensures (PostId(post), id) in Links(n) <==> MediaId(10 * post + 1) <= id <= MediaId(10 * post + 10) {
      OneMedium(post, n, id);
    }
  }

  lemma {:induction false} TenthsOf(i: int, post: nat)
    ensures (i - 1) / 10 == post <==> 10 * post + 1 <= i <= 10 * post + 10
  {
  }

  lemma {:induction false} OneMedium(post: nat, n: nat, id: int)
    requires 10 * (post + 1) <= n
    ensures (PostId(post), id) in Links(n) <==> MediaId(10 * post + 1) <= id <= MediaId(10 * post + 10)
  {
    LinkedAt(n, PostId(post), id);
    hide Links;
    TenthsOf(id - MediaId(0), post);
  }

  /** Every link joins a post and a media of one owner, and that owner is a user. */
  lemma {:induction false} OwnersAgree(post: int, id: int, seeded: Seeded)
    requires Whole(seeded) && (post, id) in Links(seeded.media)
    ensures post in Posts(seeded.posts, seeded.postsPerUser) && id in Media(seeded.media, seeded.perUser)
    ensures Posts(seeded.posts, seeded.postsPerUser)[post] == Media(seeded.media, seeded.perUser)[id]
    ensures Media(seeded.media, seeded.perUser)[id] in Users(seeded.users)
  {
    LinkedAt(seeded.media, post, id);
    hide Links, Posts, Media, Users;
    var i := id - MediaId(0);
    MediumIs(seeded.media, seeded.perUser, i);
    QuotientBelow(i - 1, 10, seeded.posts);
    PostIs(seeded.posts, seeded.postsPerUser, (i - 1) / 10);
    NestedDivision(i - 1, seeded.postsPerUser);
    MediaOwnerSeeded(seeded, i);
  }
}
