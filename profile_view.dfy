/** A user's profile page: the local connect toggle, the connection counter it feeds,
    the posts listed under the profile and when the action buttons are offered. */
module ProfileView {
  import opened Types

  /** The posts written by the profile's user, in feed order. */
  function UserPosts(posts: seq<SocialPost>, userId: string): (r: seq<SocialPost>)
    ensures IsSubsequence(r, posts)
    ensures forall i :: 0 <= i < |r| ==> r[i].userId == userId
    ensures forall i :: 0 <= i < |posts| && posts[i].userId == userId ==> posts[i] in r
  {
    FilterIsSubsequence(posts, (p: SocialPost) => p.userId == userId);
    Filter(posts, (p: SocialPost) => p.userId == userId)
  }

  /** The message and connect buttons are offered on someone else's profile only. */
  predicate ShowsActions(user: UserProfile, currentUser: UserProfile) {
    user.id != currentUser.id
  }

  /** The connection counter: the stored connections plus one while the local toggle is on. */
  function ConnectionCount(user: UserProfile, isConnected: bool): (r: nat)
    ensures isConnected ==> r == |user.connections| + 1
    ensures !isConnected ==> r == |user.connections|
  {
    |user.connections| + (if isConnected then 1 else 0)
  }

  class Profile {
    var isConnected: bool
    const user: UserProfile
    const currentUser: UserProfile

    /** The toggle starts on exactly when the viewer already lists the profile's user among
        their connections. */
    constructor (user: UserProfile, currentUser: UserProfile)
      ensures this.user == user && this.currentUser == currentUser
      ensures isConnected <==> user.id in currentUser.connections
    {
      this.user := user;
      this.currentUser := currentUser;
      isConnected := user.id in currentUser.connections;
    }

    function Count(): nat
      reads this
    {
      ConnectionCount(user, isConnected)
    }

    /** Each click flips the toggle, moving the counter by one either way. */
    method Connect()
      modifies this
      ensures isConnected == !old(isConnected)
      ensures old(isConnected) ==> Count() + 1 == old(Count())
      ensures !old(isConnected) ==> Count() == old(Count()) + 1
    {
      isConnected := !isConnected;
    }
  }

  /** Two clicks restore both the toggle and the counter. */
  method ConnectTwiceRestores(p: Profile)
    modifies p
    ensures p.isConnected == old(p.isConnected) && p.Count() == old(p.Count())
  {
    p.Connect();
    p.Connect();
  }
}
