/** The social feed: connecting with people, liking, commenting and posting, the home
    feed's scope filters, and a community page's feed and cases. */
module CommunityView {
  import opened Types
  import opened Text
  import opened Collections

  const AllNetwork := "All network"
  const AllCommunities := "All communities"
  const GeneralTopic := "General"
  const PostIdPrefix := "new-"
  const CommentIdPrefix := "c-"
  const CustomCaseId := "custom-case-1"
  const NewCaseDescription := "A new community case simulation."

  /** The community page open, if any: a non-empty selected id found among the communities. */
  function ActiveCommunity(communities: seq<Community>, selectedId: Option<string>): (r: Option<Community>)
    ensures r.Some? ==> selectedId.Some? && r.value in communities && r.value.id == selectedId.value
    ensures selectedId.Some? && selectedId.value != ""
            && (exists i :: 0 <= i < |communities| && communities[i].id == selectedId.value)
            ==> r.Some?
  {
    if selectedId.Some? && selectedId.value != "" then Find(communities, (c: Community) => c.id == selectedId.value)
    else None
  }

  // ---- Likes ----

  /** A post liked (or un-liked) once: the count moves by one and the flag flips. */
  function Liked(p: SocialPost): SocialPost {
    p.(likes := if p.isLiked then p.likes - 1 else p.likes + 1, isLiked := !p.isLiked)
  }

  /** `posts.map(p => p.id === id ? f(p) : p)`. */
  function UpdatePost(posts: seq<SocialPost>, id: string, f: SocialPost -> SocialPost): (r: seq<SocialPost>)
    ensures |r| == |posts|
    ensures forall i :: 0 <= i < |posts| ==> r[i] == (if posts[i].id == id then f(posts[i]) else posts[i])
    decreases |posts|
  {
    if posts == [] then []
    else [if posts[0].id == id then f(posts[0]) else posts[0]] + UpdatePost(posts[1..], id, f)
  }

  function LikePost(posts: seq<SocialPost>, id: string): (r: seq<SocialPost>)
    ensures |r| == |posts|
    ensures forall i :: 0 <= i < |posts| ==> r[i].id == posts[i].id
  {
    UpdatePost(posts, id, Liked)
  }

  /** Liking changes only the posts with that id, by one like in the direction of the flag. */
  lemma LikeChangesOnlyTarget(posts: seq<SocialPost>, id: string, i: int)
    requires 0 <= i < |posts|
    ensures |LikePost(posts, id)| == |posts|
    ensures posts[i].id != id ==> LikePost(posts, id)[i] == posts[i]
    ensures posts[i].id == id ==>
      && LikePost(posts, id)[i].likes == (if posts[i].isLiked then posts[i].likes - 1 else posts[i].likes + 1)
      && LikePost(posts, id)[i].isLiked == !posts[i].isLiked
      && LikePost(posts, id)[i].(likes := posts[i].likes, isLiked := posts[i].isLiked) == posts[i]
  {
  }

  /** Two likes of the same post restore the feed. */
  lemma LikeTwiceRestores(posts: seq<SocialPost>, id: string)
    ensures LikePost(LikePost(posts, id), id) == posts
  {
    var once := LikePost(posts, id);
    var twice := LikePost(once, id);
    forall i | 0 <= i < |posts|
      ensures twice[i] == posts[i]
    {
      assert once[i].id == posts[i].id;
    }
  }

  // ---- Comments ----

  datatype CommentDrafts = CommentDrafts(input: map<string, string>, expanded: map<string, bool>)

  /** Comments are shown when the post's flag is set; a missing flag reads as false. */
  predicate IsExpanded(d: CommentDrafts, postId: string) {
    postId in d.expanded && d.expanded[postId]
  }

  /** The comment text typed for a post, unless it is missing or blank. */
  function CommentText(d: CommentDrafts, postId: string): (r: Option<string>)
    ensures r.Some? <==> postId in d.input && !IsBlank(d.input[postId])
    ensures r.Some? ==> r.value == d.input[postId]
  {
    if postId in d.input && !IsBlank(d.input[postId]) then Some(d.input[postId]) else None
  }

  function NewComment(user: UserProfile, text: string, now: int): Comment {
    Comment(CommentIdPrefix + IntToString(now), user.id, user.name, user.avatar, text, now)
  }

  function WithComment(c: Comment): SocialPost -> SocialPost {
    (p: SocialPost) => p.(comments := p.comments + [c])
  }

  // ---- Composer ----

  datatype Composer = Composer(
    isOpen: bool,
    content: string,
    kind: PostType,
    audience: string,
    caseTitle: string,
    caseSpecialty: CaseCategory,
    caseDifficulty: Difficulty)

  const InitialComposer := Composer(false, "", Update, AllNetwork, "", Cardiology, Intermediate)

  /** The post built from the composer. */
  function NewPost(user: UserProfile, d: Composer, active: Option<Community>, now: int): SocialPost {
    var isCase := d.kind == CasePost;
    SocialPost(
      PostIdPrefix + IntToString(now), user.id, user.name, user.avatar, user.role,
      if isCase then Some(CustomCaseId) else None,
      if isCase then Some(d.caseTitle) else None,
      if isCase then Some(NewCaseDescription) else None,
      if isCase then Some(d.caseDifficulty) else None,
      if isCase then Some(d.caseSpecialty) else None,
      None,
      if active.Some? then CommunityOnly else if d.audience == AllNetwork then NetworkWide else CommunityOnly,
      if active.Some? then Some(active.value.name) else if d.audience != AllNetwork then Some(d.audience) else None,
      GeneralTopic, d.content, 0, [], now, false, d.kind)
  }

  /** A fresh post has no likes and no comments, carries case fields exactly when it is a
      case post, and is community-only exactly when a community page is open or the
      audience is narrower than the whole network. */
  lemma NewPostShape(user: UserProfile, d: Composer, active: Option<Community>, now: int)
    ensures var p := NewPost(user, d, active, now);
      && p.likes == 0 && p.comments == [] && !p.isLiked
      && p.userId == user.id && p.content == d.content && p.kind == d.kind
      && (p.caseId.Some? <==> d.kind == CasePost) && (p.caseTitle.Some? <==> d.kind == CasePost)
      && (p.caseDifficulty.Some? <==> d.kind == CasePost) && (p.caseCategory.Some? <==> d.kind == CasePost)
      && (p.visibility == CommunityOnly <==> active.Some? || d.audience != AllNetwork)
      && (p.targetCommunity.Some? <==> p.visibility == CommunityOnly)
  {
  }

  // ---- Feed filters ----

  datatype FeedScope = NetworkScope | CommunitiesScope

  datatype FeedView = FeedView(scope: FeedScope, communityFilter: string)

  predicate PostShown(p: SocialPost, v: FeedView) {
    && !(v.scope == CommunitiesScope && p.visibility == NetworkWide)
    && !(v.communityFilter != AllCommunities && p.targetCommunity != Some(v.communityFilter)
         && p.visibility != NetworkWide)
  }

  /** The home feed: an order-preserving selection of the posts. */
  function FilteredPosts(posts: seq<SocialPost>, v: FeedView): (r: seq<SocialPost>)
    ensures IsSubsequence(r, posts)
    ensures forall i :: 0 <= i < |r| ==> r[i] in posts && PostShown(r[i], v)
    ensures forall i :: 0 <= i < |posts| && PostShown(posts[i], v) ==> posts[i] in r
  {
    FilterIsSubsequence(posts, p => PostShown(p, v));
    Filter(posts, p => PostShown(p, v))
  }

  /** The communities scope hides every network post, while in the network scope network
      posts survive any community filter; with no filter at all the whole feed shows. */
  lemma FeedScopes(posts: seq<SocialPost>, v: FeedView)
    ensures v.scope == CommunitiesScope ==>
      forall i :: 0 <= i < |FilteredPosts(posts, v)| ==> FilteredPosts(posts, v)[i].visibility != NetworkWide
    ensures v.scope == NetworkScope ==>
      forall i :: 0 <= i < |posts| && posts[i].visibility == NetworkWide ==> posts[i] in FilteredPosts(posts, v)
    ensures v == FeedView(NetworkScope, AllCommunities) ==> FilteredPosts(posts, v) == posts
  {
    if v == FeedView(NetworkScope, AllCommunities) {
      FilterKeepsAll(posts, p => PostShown(p, v));
    }
  }

  /** A community page's feed: exactly the posts addressed to that community, in order. */
  function CommunityPosts(posts: seq<SocialPost>, c: Community): (r: seq<SocialPost>)
    ensures IsSubsequence(r, posts)
    ensures forall i :: 0 <= i < |r| ==> r[i].targetCommunity == Some(c.name)
    ensures forall i :: 0 <= i < |posts| && posts[i].targetCommunity == Some(c.name) ==> posts[i] in r
  {
    FilterIsSubsequence(posts, (p: SocialPost) => p.targetCommunity == Some(c.name));
    Filter(posts, (p: SocialPost) => p.targetCommunity == Some(c.name))
  }

  /** A community page's case list, a stand-in for real matching: the cases at even
      positions of the library, in order; each such case sits at half its position. */
  function CommunityCases(cases: seq<ClinicalCase>): (r: seq<ClinicalCase>)
    ensures |r| == (|cases| + 1) / 2
    ensures forall i :: 0 <= i < |r| ==> r[i] == cases[2 * i]
    ensures forall i :: 0 <= i < |cases| && i % 2 == 0 ==> i / 2 < |r| && r[i / 2] == cases[i]
  {
    var r := EvenIndexed(cases);
    assert forall i :: 0 <= i < |cases| && i % 2 == 0 ==> 2 * (i / 2) == i;
    r
  }

  // ---- The view's state ----

  datatype FeedState = FeedState(
    posts: seq<SocialPost>,
    connectedUsers: seq<string>,
    drafts: CommentDrafts,
    composer: Composer,
    view: FeedView)

  /** Adding the typed comment to a post. */
  function CommentStep(s: FeedState, user: UserProfile, postId: string, now: int): (r: FeedState)
    ensures r == s.(posts := r.posts, drafts := r.drafts)
    ensures |r.posts| == |s.posts|
    ensures forall i :: 0 <= i < |s.posts| && s.posts[i].id != postId ==> r.posts[i] == s.posts[i]
  {
    var text := CommentText(s.drafts, postId);
    if text.None? then s
    else
      s.(posts := UpdatePost(s.posts, postId, WithComment(NewComment(user, text.value, now))),
         drafts := CommentDrafts(s.drafts.input[postId := ""], s.drafts.expanded[postId := true]))
  }

  /** A missing or blank comment changes nothing; otherwise the matching posts gain exactly
      that comment at the end, every other post is untouched, the post's input is cleared
      and its comments are shown. */
  lemma CommentStepEffect(s: FeedState, user: UserProfile, postId: string, now: int, i: int)
    requires 0 <= i < |s.posts|
    ensures var t := CommentStep(s, user, postId, now);
      && (postId !in s.drafts.input || IsBlank(s.drafts.input[postId]) ==> t == s)
      && (postId in s.drafts.input && !IsBlank(s.drafts.input[postId]) ==>
            && |t.posts| == |s.posts|
            && (s.posts[i].id != postId ==> t.posts[i] == s.posts[i])
            && (s.posts[i].id == postId ==>
                  t.posts[i] == s.posts[i].(comments := s.posts[i].comments
                                              + [NewComment(user, s.drafts.input[postId], now)]))
            && t.drafts.input[postId] == "" && IsExpanded(t.drafts, postId)
            && t.connectedUsers == s.connectedUsers && t.composer == s.composer && t.view == s.view)
  {
  }

  /** Publishing the composer's post. */
  function PostStep(s: FeedState, user: UserProfile, active: Option<Community>, now: int): (r: FeedState)
    ensures r == s.(posts := r.posts, composer := r.composer)
    ensures |r.posts| == |s.posts| || |r.posts| == |s.posts| + 1
    ensures r.posts[|r.posts| - |s.posts|..] == s.posts
  {
    if IsBlank(s.composer.content) then s
    else
      s.(posts := [NewPost(user, s.composer, active, now)] + s.posts,
         composer := s.composer.(content := "", isOpen := false, kind := Update))
  }

  /** Blank content is ignored; otherwise the new post goes to the front, ahead of the
      unchanged older posts, and the composer is emptied, closed and reset to an update. */
  lemma PostStepEffect(s: FeedState, user: UserProfile, active: Option<Community>, now: int)
    ensures IsBlank(s.composer.content) ==> PostStep(s, user, active, now) == s
    ensures !IsBlank(s.composer.content) ==>
      var t := PostStep(s, user, active, now);
      && |t.posts| == |s.posts| + 1
      && t.posts[0] == NewPost(user, s.composer, active, now)
      && t.posts[1..] == s.posts
      && t.composer.content == "" && !t.composer.isOpen && t.composer.kind == Update
      && t.composer.audience == s.composer.audience
  {
  }

  class CommunityFeed {
    var posts: seq<SocialPost>
    var connectedUsers: seq<string>
    var drafts: CommentDrafts
    var composer: Composer
    var view: FeedView
    const user: UserProfile
    const activeCommunity: Option<Community>

    function State(): FeedState
      reads this
    {
      FeedState(posts, connectedUsers, drafts, composer, view)
    }

    constructor (initialPosts: seq<SocialPost>, user: UserProfile, communities: seq<Community>,
                 selectedId: Option<string>)
      ensures State() == FeedState(initialPosts, [], CommentDrafts(map[], map[]), InitialComposer,
                                   FeedView(NetworkScope, AllCommunities))
      ensures this.user == user && activeCommunity == ActiveCommunity(communities, selectedId)
    {
      posts := initialPosts;
      connectedUsers := [];
      drafts := CommentDrafts(map[], map[]);
      composer := InitialComposer;
      view := FeedView(NetworkScope, AllCommunities);
      this.user := user;
      activeCommunity := ActiveCommunity(communities, selectedId);
    }

    /** Connect with a person, or disconnect when already connected. */
    method Connect(userId: string)
      modifies this
      ensures State() == old(State()).(connectedUsers := Toggle(old(connectedUsers), userId))
      ensures userId in connectedUsers <==> userId !in old(connectedUsers)
    {
      connectedUsers := Toggle(connectedUsers, userId);
    }

    method Like(postId: string)
      modifies this
      ensures State() == old(State()).(posts := LikePost(old(posts), postId))
    {
      posts := LikePost(posts, postId);
    }

    /** Shows or hides a post's comments. */
    method ToggleComments(postId: string)
      modifies this
      ensures State() == old(State()).(drafts := old(drafts).(expanded :=
                old(drafts).expanded[postId := !IsExpanded(old(drafts), postId)]))
      ensures IsExpanded(drafts, postId) <==> !IsExpanded(old(drafts), postId)
    {
      drafts := drafts.(expanded := drafts.expanded[postId := !IsExpanded(drafts, postId)]);
    }

    method TypeComment(postId: string, text: string)
      modifies this
      ensures State() == old(State()).(drafts := old(drafts).(input := old(drafts).input[postId := text]))
    {
      drafts := drafts.(input := drafts.input[postId := text]);
    }

    method AddComment(postId: string, now: int)
      modifies this
      ensures State() == CommentStep(old(State()), user, postId, now)
    {
      var text := CommentText(drafts, postId);
      if text.Some? {
        posts := UpdatePost(posts, postId, WithComment(NewComment(user, text.value, now)));
        drafts := CommentDrafts(drafts.input[postId := ""], drafts.expanded[postId := true]);
      }
    }

    /** Typing in the composer: its content, type, audience and case fields. */
    method EditComposer(content: string, kind: PostType, audience: string, caseTitle: string,
                        caseSpecialty: CaseCategory, caseDifficulty: Difficulty)
      modifies this
      ensures State() == old(State()).(composer :=
                Composer(old(composer).isOpen, content, kind, audience, caseTitle, caseSpecialty, caseDifficulty))
    {
      composer := Composer(composer.isOpen, content, kind, audience, caseTitle, caseSpecialty, caseDifficulty);
    }

    method CreatePost(now: int)
      modifies this
      ensures State() == PostStep(old(State()), user, activeCommunity, now)
    {
      if !IsBlank(composer.content) {
        posts := [NewPost(user, composer, activeCommunity, now)] + posts;
        composer := composer.(content := "", isOpen := false, kind := Update);
      }
    }

    method ChooseFeed(v: FeedView)
      modifies this
      ensures State() == old(State()).(view := v)
    {
      view := v;
    }

    /** The home feed as currently filtered. */
    function ShownPosts(): (r: seq<SocialPost>)
      reads this
      ensures IsSubsequence(r, posts)
      ensures forall i :: 0 <= i < |r| ==> PostShown(r[i], view)
    {
      FilteredPosts(posts, view)
    }
  }
}
