/**
 Authorisation in two forms (boards/policies.py): decisions about one object, and the filters that
 lists are cut down with. The second must select exactly the rows the first allows.
 */
module Policies {
  import opened Prelude
  import opened AccessRules

  /** `pk` is None for an anonymous visitor. */
  datatype User = User(pk: Option<nat>, authenticated: bool, active: bool, superuser: bool)

  datatype Board = Board(active: bool, category: Option<nat>)

  datatype Membership = Membership(board: nat, user: nat, role: Role, active: bool)

  datatype Post = Post(pk: nat, category: Option<nat>, owner: Option<nat>, status: nat, visibility: nat)

  const STATUS_NORMAL := 1
  const STATUS_DRAFT := 2
  const STATUS_REVIEW := 3
  const VISIBILITY_PUBLIC := 0
  const VISIBILITY_STAFF_ONLY := 1

  datatype Database = Database(boards: map<nat, Board>, memberships: seq<Membership>)

  /** Foreign keys point somewhere, and a user has one membership row per board. */
  ghost predicate ValidDatabase(db: Database) {
    && (forall m :: m in db.memberships ==> m.board in db.boards)
    && UniqueMemberships(db)
  }

  ghost predicate UniqueMemberships(db: Database) {
    forall i, j :: 0 <= i < j < |db.memberships| ==>
      !(db.memberships[i].board == db.memberships[j].board && db.memberships[i].user == db.memberships[j].user)
  }

  predicate IsActiveAuthenticated(user: User) {
    user.authenticated && user.active
  }

  predicate IsActiveSuperuser(user: User) {
    IsActiveAuthenticated(user) && user.superuser
  }

  /* ---------- Decisions about one object ---------- */

  function BoardsOf(db: Database, category: nat): set<nat> {
    set b | b in db.boards && db.boards[b].category == Some(category)
  }

  /** `board_for_post`: the one board of the category, if it is one. */
  ghost function BoardForPost(db: Database, post: Post): (r: Option<nat>)
    ensures r.Some? ==> post.category.Some? && r.value in db.boards && db.boards[r.value].category == post.category
  {
    if post.category == None || |BoardsOf(db, post.category.value)| != 1 then None
    else
      var b :| b in BoardsOf(db, post.category.value);
      Some(b)
  }

  /** `BoardMembership.objects.filter(board, user, is_active=True).first()` */
  function FirstMembership(rows: seq<Membership>, board: nat, user: nat): (r: Option<Membership>)
    ensures r.Some? ==> r.value in rows && r.value.board == board && r.value.user == user && r.value.active
  {
    if rows == [] then None
    else if rows[0].board == board && rows[0].user == user && rows[0].active then Some(rows[0])
    else FirstMembership(rows[1..], board, user)
  }

  function GetActiveMembership(db: Database, user: User, board: Option<nat>): Option<Membership> {
    if !IsActiveAuthenticated(user) || user.pk == None || board == None || board.value !in db.boards
        || !db.boards[board.value].active
    then None
    else FirstMembership(db.memberships, board.value, user.pk.value)
  }

  predicate Allows(db: Database, user: User, board: Option<nat>, action: BoardAction, owns: bool) {
    if !IsActiveAuthenticated(user) then false
    else if IsActiveSuperuser(user) then true
    else
      match GetActiveMembership(db, user, board)
      case None => false
      case Some(m) => AllowsBoardAction(Some(m.role), action, m.active, Some(m.board) == board, owns)
  }

  predicate Owns(user: User, post: Post) {
    post.owner == user.pk
  }

  ghost predicate CanViewPost(db: Database, user: User, post: Post) {
    if IsActiveSuperuser(user) then true
    else
      match GetActiveMembership(db, user, BoardForPost(db, post))
      case None => false
      case Some(m) => m.role in {Reviewer, Manager} || (m.role in {Contributor, Editor} && Owns(user, post))
  }

  ghost predicate CanViewPublishedPost(db: Database, user: User, post: Post) {
    if post.status != STATUS_NORMAL then false
    else if post.visibility == VISIBILITY_PUBLIC then true
    else CanViewPost(db, user, post)
  }

  ghost predicate CanEditPost(db: Database, user: User, post: Post) {
    var action :=
      if !Owns(user, post) then EditAnyPost
      else if post.status == STATUS_DRAFT then EditOwnDraft
      else EditOwnPost;
    Allows(db, user, BoardForPost(db, post), action, Owns(user, post))
  }

  ghost predicate CanPublishPost(db: Database, user: User, post: Post) {
    Allows(db, user, BoardForPost(db, post), PublishPost, Owns(user, post))
  }

  /** `can_moderate_comment`, on the post of the comment. */
  ghost predicate CanModerateComment(db: Database, user: User, post: Post) {
    Allows(db, user, BoardForPost(db, post), ModerateComment, false)
  }

  predicate CanManageBoard(db: Database, user: User, board: nat) {
    Allows(db, user, Some(board), ManageBoardMembers, false)
  }

  /* ---------- Filters ---------- */

  /** `_unambiguous_category_ids`: inactive boards count as well. */
  predicate Unambiguous(db: Database, category: nat) {
    |BoardsOf(db, category)| == 1
  }

  /** `_membership_category_ids` */
  function MembershipCategories(db: Database, user: User, roles: set<Role>): set<nat> {
    if !IsActiveAuthenticated(user) then {}
    else
      set m | m in db.memberships && Some(m.user) == user.pk && m.active && m.role in roles
              && m.board in db.boards && db.boards[m.board].active && db.boards[m.board].category.Some?
              && Unambiguous(db, db.boards[m.board].category.value)
            :: db.boards[m.board].category.value
  }

  /** `category_id__in=...`; a null category is in no list. */
  predicate InCategories(post: Post, categories: set<nat>) {
    post.category.Some? && post.category.value in categories
  }

  ghost function PostsVisibleTo(db: Database, user: User, rows: seq<Post>): seq<Post> {
    if IsActiveSuperuser(user) then rows
    else if !IsActiveAuthenticated(user) then []
    else
      var all := MembershipCategories(db, user, {Reviewer, Manager});
      var own := MembershipCategories(db, user, {Contributor, Editor});
      Filter(rows, (p: Post) => InCategories(p, all) || (InCategories(p, own) && Owns(user, p)))
  }

  ghost function PostsEditableBy(db: Database, user: User, rows: seq<Post>): seq<Post> {
    if IsActiveSuperuser(user) then rows
    else if !IsActiveAuthenticated(user) then []
    else
      var manager := MembershipCategories(db, user, {Manager});
      var editor := MembershipCategories(db, user, {Editor});
      var contributor := MembershipCategories(db, user, {Contributor});
      Filter(rows, (p: Post) =>
        || InCategories(p, manager)
        || (InCategories(p, editor) && Owns(user, p))
        || (InCategories(p, contributor) && Owns(user, p) && p.status == STATUS_DRAFT))
  }

  ghost function PostsPublishableBy(db: Database, user: User, rows: seq<Post>): seq<Post> {
    if IsActiveSuperuser(user) then rows
    else if !IsActiveAuthenticated(user) then []
    else
      var categories := MembershipCategories(db, user, {Reviewer, Manager});
      Filter(Filter(rows, (p: Post) => InCategories(p, categories)), (p: Post) => !Owns(user, p))
  }

  ghost function PublishedPostsVisibleTo(db: Database, user: User, rows: seq<Post>): seq<Post> {
    var published := Filter(rows, (p: Post) => p.status == STATUS_NORMAL);
    if IsActiveSuperuser(user) then published
    else if !IsActiveAuthenticated(user) then Filter(published, (p: Post) => p.visibility == VISIBILITY_PUBLIC)
    else
      var internal := PostsVisibleTo(db, user, Filter(published, (p: Post) => p.visibility == VISIBILITY_STAFF_ONLY));
      var ids := set p | p in internal :: p.pk;
      Filter(published, (p: Post) => p.visibility == VISIBILITY_PUBLIC || p.pk in ids)
  }

  /** `comments_visible_to_moderator` on comments given by their posts. */
  ghost function CommentsVisibleToModerator(db: Database, user: User, rows: seq<Post>): seq<Post> {
    if IsActiveSuperuser(user) then rows
    else if !IsActiveAuthenticated(user) then []
    else
      var categories := MembershipCategories(db, user, {Reviewer, Manager});
      Filter(rows, (p: Post) => InCategories(p, categories))
  }

  /**
   `boards_manageable_by`; joins on memberships, so a board row counts once per matching membership
   until `distinct`.
   */
  ghost function BoardsManageableBy(db: Database, user: User, rows: seq<nat>): seq<nat> {
    if IsActiveSuperuser(user) then rows
    else if !IsActiveAuthenticated(user) then []
    else
      Filter(rows, (b: nat) =>
        b in db.boards && db.boards[b].active
        && exists m :: m in db.memberships && m.board == b && Some(m.user) == user.pk && m.role == Manager && m.active)
  }

  /* ---------- The decisions, in roles and keys ---------- */

  /** The board is active and the only one of the post's category. */
  ghost predicate OnlyBoardOf(db: Database, post: Post, board: nat) {
    && board in db.boards && db.boards[board].active
    && post.category.Some? && db.boards[board].category == post.category
    && forall b :: b in db.boards && db.boards[b].category == post.category ==> b == board
  }

  /** `m` is the user's active membership of the post's only board, which is active. */
  ghost predicate Serves(db: Database, user: User, post: Post, m: Membership) {
    m in db.memberships && Some(m.user) == user.pk && m.active && OnlyBoardOf(db, post, m.board)
  }

  lemma BoardIsFound(db: Database, post: Post, board: nat)
    requires OnlyBoardOf(db, post, board)
    ensures BoardForPost(db, post) == Some(board)
  {
    assert BoardsOf(db, post.category.value) == {board};
  }

  lemma BoardIsOnly(db: Database, post: Post)
    ensures var b := BoardForPost(db, post);
            b.Some? && db.boards[b.value].active ==> OnlyBoardOf(db, post, b.value)
  {
    var found := BoardForPost(db, post);
    if found.Some? {
      forall b | b in db.boards && db.boards[b].category == post.category ensures b == found.value {
        OnlyBoard(db, post.category.value, b, found.value);
      }
    }
  }

  /** The membership the decisions look at is that one, if there is one. */
  lemma MembershipIsFound(db: Database, user: User, post: Post, m: Membership)
    requires ValidDatabase(db) && user.authenticated && user.active && Serves(db, user, post, m)
    ensures GetActiveMembership(db, user, BoardForPost(db, post)) == Some(m) && BoardForPost(db, post) == Some(m.board)
  {
    BoardIsFound(db, post, m.board);
    FirstMembershipFinds(db.memberships, m.board, m.user);
    OnlyMembership(db, m, FirstMembership(db.memberships, m.board, m.user).value);
  }

  lemma NoMembershipIsFound(db: Database, user: User, post: Post)
    requires !(user.authenticated && user.active) || forall m :: m in db.memberships ==> !Serves(db, user, post, m)
    ensures GetActiveMembership(db, user, BoardForPost(db, post)) == None
  {
    BoardIsOnly(db, post);
    var found := GetActiveMembership(db, user, BoardForPost(db, post));
    if found.Some? { assert Serves(db, user, post, found.value); }
  }

  /**
   What an active user who is no superuser may do with a post, by the role on its only board.
   Reviewers and managers see every post, contributors and editors their own. Managers edit every
   post, editors their own, contributors their own drafts. Reviewers and managers publish what is not
   their own, and moderate.
   */
  lemma DecisionsByRole(db: Database, user: User, post: Post, m: Membership)
    requires ValidDatabase(db) && user.authenticated && user.active && !user.superuser && Serves(db, user, post, m)
    ensures CanViewPost(db, user, post) <==>
            m.role in {Reviewer, Manager} || (m.role in {Contributor, Editor} && post.owner == user.pk)
    ensures CanEditPost(db, user, post) <==>
            || m.role == Manager
            || (m.role == Editor && post.owner == user.pk)
            || (m.role == Contributor && post.owner == user.pk && post.status == 2)
    ensures CanPublishPost(db, user, post) <==> m.role in {Reviewer, Manager} && post.owner != user.pk
    ensures CanModerateComment(db, user, post) <==> m.role in {Reviewer, Manager}
  {
    hide BoardForPost, GetActiveMembership, ValidDatabase, Serves;
    MembershipIsFound(db, user, post, m);
    ServesMeans(db, user, post, m);
  }

  lemma ServesMeans(db: Database, user: User, post: Post, m: Membership)
    requires Serves(db, user, post, m)
    ensures m.active
  {
  }

  /** Superusers may do everything; nobody else who is inactive or has no such membership may do anything. */
  lemma DecisionsWithoutRole(db: Database, user: User, post: Post)
    ensures user.authenticated && user.active && user.superuser ==>
              CanViewPost(db, user, post) && CanEditPost(db, user, post) && CanPublishPost(db, user, post)
              && CanModerateComment(db, user, post)
    ensures !(user.authenticated && user.active)
            || (!user.superuser && forall m :: m in db.memberships ==> !Serves(db, user, post, m)) ==>
              !CanViewPost(db, user, post) && !CanEditPost(db, user, post) && !CanPublishPost(db, user, post)
              && !CanModerateComment(db, user, post)
  {
    hide BoardForPost, GetActiveMembership, Serves;
    if !(user.authenticated && user.active) || forall m :: m in db.memberships ==> !Serves(db, user, post, m) {
      NoMembershipIsFound(db, user, post);
    }
  }

  /**
   A published post (status 1) that is public (visibility 0) is open to everybody, any other to
   those who may view it.
   */
  lemma PublishedDecision(db: Database, user: User, post: Post)
    ensures CanViewPublishedPost(db, user, post) <==>
            post.status == 1 && (post.visibility == 0 || CanViewPost(db, user, post))
  {
    hide CanViewPost;
  }

  /** The members of a board are managed by superusers and by its active managers while it is active. */
  lemma ManagementDecision(db: Database, user: User, board: nat)
    requires ValidDatabase(db)
    ensures CanManageBoard(db, user, board) <==>
            && user.authenticated && user.active
            && (user.superuser ||
                (board in db.boards && db.boards[board].active
                 && exists m :: m in db.memberships && m.board == board && Some(m.user) == user.pk && m.active
                                && m.role == Manager))
  {
    if user.authenticated && user.active && !user.superuser { ManagerCheck(db, user, board); }
  }

  /* ---------- They agree ---------- */

  lemma {:induction false} FirstMembershipFinds(rows: seq<Membership>, board: nat, user: nat)
    ensures FirstMembership(rows, board, user) == None ==>
              forall m :: m in rows ==> !(m.board == board && m.user == user && m.active)
  {
    if rows != [] { FirstMembershipFinds(rows[1..], board, user); }
  }

  lemma OnlyMembership(db: Database, m1: Membership, m2: Membership)
    requires UniqueMemberships(db) && m1 in db.memberships && m2 in db.memberships
    requires m1.board == m2.board && m1.user == m2.user
    ensures m1 == m2
  {
  }

  lemma OnlyBoard(db: Database, category: nat, b: nat, c: nat)
    requires Unambiguous(db, category) && b in BoardsOf(db, category) && c in BoardsOf(db, category)
    ensures b == c
  {
    if b != c {
      assert {b, c} <= BoardsOf(db, category);
      Subset({b, c}, BoardsOf(db, category));
    }
  }

  lemma {:induction false} Subset<T>(a: set<T>, b: set<T>)
    requires a <= b
    ensures |a| <= |b|
  {
    if a != {} {
      var x :| x in a;
      Subset(a - {x}, b - {x});
    }
  }

  /** The set form of a role check is the object form: a membership of the post's only board in one of the roles. */
  lemma CategoryCheck(db: Database, user: User, roles: set<Role>, post: Post)
    requires ValidDatabase(db)
    ensures var m := GetActiveMembership(db, user, BoardForPost(db, post));
            InCategories(post, MembershipCategories(db, user, roles)) <==> m.Some? && m.value.role in roles
  {
    hide Filter;
    var board := BoardForPost(db, post);
    var found := GetActiveMembership(db, user, board);
    if found.Some? && found.value.role in roles {
      var m := found.value;
      assert m in db.memberships && db.boards[m.board].category == post.category;
    }
    if InCategories(post, MembershipCategories(db, user, roles)) {
      var m :| m in db.memberships && Some(m.user) == user.pk && m.active && m.role in roles
               && m.board in db.boards && db.boards[m.board].active && db.boards[m.board].category == post.category
               && Unambiguous(db, post.category.value);
      assert m.board in BoardsOf(db, post.category.value);
      OnlyBoard(db, post.category.value, m.board, board.value);
      FirstMembershipFinds(db.memberships, m.board, m.user);
      OnlyMembership(db, m, found.value);
    }
  }

  /** `posts_visible_to` selects exactly what `can_view_post` allows. */
  lemma VisibleAgrees(db: Database, user: User, rows: seq<Post>)
    requires ValidDatabase(db)
    ensures PostsVisibleTo(db, user, rows) == Filter(rows, (p: Post) => CanViewPost(db, user, p))
  {
    hide GetActiveMembership, MembershipCategories, InCategories, BoardForPost, ValidDatabase, Filter;
    var keep := (p: Post) => CanViewPost(db, user, p);
    if IsActiveSuperuser(user) { FilterAll(rows, keep); }
    else if !IsActiveAuthenticated(user) { NobodyViews(db, user); FilterNone(rows, keep); }
    else {
      var all := MembershipCategories(db, user, {Reviewer, Manager});
      var own := MembershipCategories(db, user, {Contributor, Editor});
      var f := (p: Post) => InCategories(p, all) || (InCategories(p, own) && Owns(user, p));
      forall p | p in rows ensures f(p) == keep(p) {
        CategoryCheck(db, user, {Reviewer, Manager}, p);
        CategoryCheck(db, user, {Contributor, Editor}, p);
      }
      SameFilter(rows, f, keep);
    }
  }

  lemma NobodyViews(db: Database, user: User)
    requires !IsActiveAuthenticated(user)
    ensures forall board :: GetActiveMembership(db, user, board) == None
  {
  }

  /** `posts_editable_by` selects exactly what `can_edit_post` allows. */
  lemma EditableAgrees(db: Database, user: User, rows: seq<Post>)
    requires ValidDatabase(db)
    ensures PostsEditableBy(db, user, rows) == Filter(rows, (p: Post) => CanEditPost(db, user, p))
  {
    hide MembershipCategories, InCategories, BoardForPost, ValidDatabase, Filter, FirstMembership;
    var keep := (p: Post) => CanEditPost(db, user, p);
    if IsActiveSuperuser(user) { FilterAll(rows, keep); }
    else if !IsActiveAuthenticated(user) { FilterNone(rows, keep); }
    else {
      var manager := MembershipCategories(db, user, {Manager});
      var editor := MembershipCategories(db, user, {Editor});
      var contributor := MembershipCategories(db, user, {Contributor});
      var f := (p: Post) =>
        || InCategories(p, manager)
        || (InCategories(p, editor) && Owns(user, p))
        || (InCategories(p, contributor) && Owns(user, p) && p.status == STATUS_DRAFT);
      forall p | p in rows ensures f(p) == keep(p) {
        CategoryCheck(db, user, {Manager}, p);
        CategoryCheck(db, user, {Editor}, p);
        CategoryCheck(db, user, {Contributor}, p);
      }
      SameFilter(rows, f, keep);
    }
  }

  /** `posts_publishable_by` selects exactly what `can_publish_post` allows. */
  lemma PublishableAgrees(db: Database, user: User, rows: seq<Post>)
    requires ValidDatabase(db)
    ensures PostsPublishableBy(db, user, rows) == Filter(rows, (p: Post) => CanPublishPost(db, user, p))
  {
    hide MembershipCategories, InCategories, BoardForPost, ValidDatabase, Filter, FirstMembership;
    var keep := (p: Post) => CanPublishPost(db, user, p);
    if IsActiveSuperuser(user) { FilterAll(rows, keep); }
    else if !IsActiveAuthenticated(user) { FilterNone(rows, keep); }
    else {
      var categories := MembershipCategories(db, user, {Reviewer, Manager});
      var scoped := (p: Post) => InCategories(p, categories);
      var foreign := (p: Post) => !Owns(user, p);
      forall p | p in rows ensures keep(p) == (scoped(p) && foreign(p)) {
        CategoryCheck(db, user, {Reviewer, Manager}, p);
      }
      FilterTwice(rows, scoped, foreign, keep);
    }
  }

  /** `comments_visible_to_moderator` selects exactly what `can_moderate_comment` allows. */
  lemma ModerationAgrees(db: Database, user: User, rows: seq<Post>)
    requires ValidDatabase(db)
    ensures CommentsVisibleToModerator(db, user, rows) == Filter(rows, (p: Post) => CanModerateComment(db, user, p))
  {
    hide MembershipCategories, InCategories, BoardForPost, ValidDatabase, Filter, FirstMembership;
    var keep := (p: Post) => CanModerateComment(db, user, p);
    if IsActiveSuperuser(user) { FilterAll(rows, keep); }
    else if !IsActiveAuthenticated(user) { FilterNone(rows, keep); }
    else {
      var categories := MembershipCategories(db, user, {Reviewer, Manager});
      var f := (p: Post) => InCategories(p, categories);
      forall p | p in rows ensures f(p) == keep(p) {
        CategoryCheck(db, user, {Reviewer, Manager}, p);
      }
      SameFilter(rows, f, keep);
    }
  }

  /** `boards_manageable_by` selects exactly the boards `can_manage_board_members` allows. */
  lemma ManageableAgrees(db: Database, user: User, rows: seq<nat>)
    requires ValidDatabase(db)
    ensures BoardsManageableBy(db, user, rows) == Filter(rows, (b: nat) => CanManageBoard(db, user, b))
  {
    hide ValidDatabase, Filter, FirstMembership;
    var keep := (b: nat) => CanManageBoard(db, user, b);
    if IsActiveSuperuser(user) { FilterAll(rows, keep); }
    else if !IsActiveAuthenticated(user) { FilterNone(rows, keep); }
    else {
      var f := (b: nat) =>
        b in db.boards && db.boards[b].active
        && exists m :: m in db.memberships && m.board == b && Some(m.user) == user.pk && m.role == Manager && m.active;
      forall b | b in rows ensures f(b) == keep(b) {
        ManagerCheck(db, user, b);
      }
      SameFilter(rows, f, keep);
    }
  }

  lemma ManagerCheck(db: Database, user: User, b: nat)
    requires ValidDatabase(db) && IsActiveAuthenticated(user) && !user.superuser
    ensures CanManageBoard(db, user, b) <==>
            b in db.boards && db.boards[b].active
            && exists m :: m in db.memberships && m.board == b && Some(m.user) == user.pk && m.role == Manager
                 && m.active
  {
    if b in db.boards && db.boards[b].active && user.pk.Some? {
      FirstMembershipFinds(db.memberships, b, user.pk.value);
      var found := FirstMembership(db.memberships, b, user.pk.value);
      if m :| m in db.memberships && m.board == b && Some(m.user) == user.pk && m.role == Manager && m.active {
        OnlyMembership(db, m, found.value);
      }
    }
  }

  /* ---------- Published posts ---------- */

  ghost predicate UniqueKeys(rows: seq<Post>) {
    forall i, j :: 0 <= i < j < |rows| ==> rows[i].pk != rows[j].pk
  }

  /** The one case in which the two forms differ: an internal post of a third visibility. */
  ghost predicate Overlooked(db: Database, user: User, p: Post) {
    && !IsActiveSuperuser(user)
    && p.status == 1 && p.visibility !in {0, 1}
    && CanViewPost(db, user, p)
  }

  /** What `published_posts_visible_to` selects, row by row. */
  lemma PublishedMeaning(db: Database, user: User, rows: seq<Post>)
    requires ValidDatabase(db) && UniqueKeys(rows)
    ensures PublishedPostsVisibleTo(db, user, rows) ==
            Filter(rows, (p: Post) => CanViewPublishedPost(db, user, p) && !Overlooked(db, user, p))
  {
    hide ValidDatabase, Filter, PostsVisibleTo;
    var keep := (p: Post) => CanViewPublishedPost(db, user, p) && !Overlooked(db, user, p);
    var normal := (p: Post) => p.status == STATUS_NORMAL;
    var published := Filter(rows, normal);
    if IsActiveSuperuser(user) {
      SameFilter(rows, normal, keep);
    } else if !IsActiveAuthenticated(user) {
      var isPublic := (p: Post) => p.visibility == VISIBILITY_PUBLIC;
      NobodyViews(db, user);
      FilterTwice(rows, normal, isPublic, keep);
    } else {
      var staffOnly := (p: Post) => p.visibility == VISIBILITY_STAFF_ONLY;
      var inside := Filter(published, staffOnly);
      var internal := PostsVisibleTo(db, user, inside);
      var ids := set p | p in internal :: p.pk;
      var listed := (p: Post) => p.visibility == VISIBILITY_PUBLIC || p.pk in ids;
      FilterMembers(rows, normal);
      FilterMembers(published, staffOnly);
      VisibleAgrees(db, user, inside);
      FilterMembers(inside, (p: Post) => CanViewPost(db, user, p));
      forall p | p in rows ensures keep(p) == (normal(p) && listed(p)) {
        if normal(p) && p.pk in ids {
          var q :| q in internal && q.pk == p.pk;
          SameKey(rows, p, q);
        }
        if normal(p) && staffOnly(p) && CanViewPost(db, user, p) {
          assert p in internal;
        }
      }
      FilterTwice(rows, normal, listed, keep);
    }
  }

  lemma SameKey(rows: seq<Post>, p: Post, q: Post)
    requires UniqueKeys(rows) && p in rows && q in rows && p.pk == q.pk
    ensures p == q
  {
  }

  /**
   `published_posts_visible_to` selects exactly what `can_view_published_post` allows, if and only if
   no published row of a visibility other than the two known ones is open to the user. In
   particular it does on every table with two-valued visibility.
   */
  lemma PublishedAgrees(db: Database, user: User, rows: seq<Post>)
    requires ValidDatabase(db) && UniqueKeys(rows)
    ensures PublishedPostsVisibleTo(db, user, rows) == Filter(rows, (p: Post) => CanViewPublishedPost(db, user, p))
            <==> forall p :: p in rows ==> !Overlooked(db, user, p)
    ensures (forall p :: p in rows ==> p.visibility in {0, 1}) ==>
              PublishedPostsVisibleTo(db, user, rows) == Filter(rows, (p: Post) => CanViewPublishedPost(db, user, p))
  {
    hide ValidDatabase, Filter, PublishedPostsVisibleTo, CanViewPost;
    PublishedMeaning(db, user, rows);
    var allowed := (p: Post) => CanViewPublishedPost(db, user, p);
    var selected := (p: Post) => CanViewPublishedPost(db, user, p) && !Overlooked(db, user, p);
    FilterMembers(rows, allowed);
    FilterMembers(rows, selected);
    if forall p :: p in rows ==> !Overlooked(db, user, p) {
      SameFilter(rows, selected, allowed);
    } else {
      var p :| p in rows && Overlooked(db, user, p);
      assert p in Filter(rows, allowed) && p !in Filter(rows, selected);
    }
  }

  /** Revisions are listed by the visibility of their posts. */
  datatype Revision = Revision(post: Post, version: nat)

  ghost function PostRevisionsVisibleTo(db: Database, user: User, rows: seq<Revision>): seq<Revision> {
    if IsActiveSuperuser(user) then rows
    else if !IsActiveAuthenticated(user) then []
    else
      var all := MembershipCategories(db, user, {Reviewer, Manager});
      var own := MembershipCategories(db, user, {Contributor, Editor});
      Filter(rows, (r: Revision) => InCategories(r.post, all) || (InCategories(r.post, own) && Owns(user, r.post)))
  }

  /** `post_revisions_visible_to` selects exactly what `can_view_post_revision` allows. */
  lemma RevisionsAgree(db: Database, user: User, rows: seq<Revision>)
    requires ValidDatabase(db)
    ensures PostRevisionsVisibleTo(db, user, rows) == Filter(rows, (r: Revision) => CanViewPost(db, user, r.post))
  {
    hide GetActiveMembership, MembershipCategories, InCategories, BoardForPost, ValidDatabase, Filter;
    var keep := (r: Revision) => CanViewPost(db, user, r.post);
    if IsActiveSuperuser(user) { FilterAll(rows, keep); }
    else if !IsActiveAuthenticated(user) { NobodyViews(db, user); FilterNone(rows, keep); }
    else {
      var all := MembershipCategories(db, user, {Reviewer, Manager});
      var own := MembershipCategories(db, user, {Contributor, Editor});
      var f := (r: Revision) => InCategories(r.post, all) || (InCategories(r.post, own) && Owns(user, r.post));
      forall r | r in rows ensures f(r) == keep(r) {
        CategoryCheck(db, user, {Reviewer, Manager}, r.post);
        CategoryCheck(db, user, {Contributor, Editor}, r.post);
      }
      SameFilter(rows, f, keep);
    }
  }

  /* ---------- Why memberships must be unique ---------- */

  /**
   With two active rows for one user and board the object form looks at the first only, so the two
   forms part ways.
   */
  lemma DuplicateMembershipsDisagree(post: Post)
    requires post.category == Some(1) && post.owner == None
    ensures var db := Database(map[7 := Board(true, Some(1))],
                               [Membership(7, 3, Contributor, true), Membership(7, 3, Manager, true)]);
            var user := User(Some(3), true, true, false);
            PostsVisibleTo(db, user, [post]) == [post] && !CanViewPost(db, user, post)
  {
    var db := Database(map[7 := Board(true, Some(1))],
                       [Membership(7, 3, Contributor, true), Membership(7, 3, Manager, true)]);
    var user := User(Some(3), true, true, false);
    assert BoardsOf(db, 1) == {7};
    assert BoardForPost(db, post) == Some(7);
    assert db.memberships[1] in db.memberships;
    assert 1 in MembershipCategories(db, user, {Reviewer, Manager});
    assert GetActiveMembership(db, user, Some(7)) == Some(db.memberships[0]);
    assert !CanViewPost(db, user, post);
    var all := MembershipCategories(db, user, {Reviewer, Manager});
    var own := MembershipCategories(db, user, {Contributor, Editor});
    FilterAll([post], (p: Post) => InCategories(p, all) || (InCategories(p, own) && Owns(user, p)));
  }
}
