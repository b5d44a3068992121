/** The network page: connecting with people, joining communities, and the split of the
    community list into the user's own and suggested ones. */
module NetworkView {
  import opened Types
  import opened Collections

  datatype NetworkTab = PeopleTab | CommunitiesTab

  const InitialCommunities := ["comm-1", "comm-2"]

  /** The communities the user belongs to, in list order. */
  function MyCommunities(communities: seq<Community>, joined: seq<string>): seq<Community> {
    Filter(communities, (c: Community) => c.id in joined)
  }

  /** The communities the user has not joined, in list order. */
  function Suggested(communities: seq<Community>, joined: seq<string>): seq<Community> {
    Filter(communities, (c: Community) => c.id !in joined)
  }

  /** "My communities" and "Suggested" split the list by membership: every community is in
      exactly one of them. */
  lemma CommunitiesPartition(communities: seq<Community>, joined: seq<string>)
    ensures |MyCommunities(communities, joined)| + |Suggested(communities, joined)| == |communities|
    ensures forall c :: c in MyCommunities(communities, joined) ==> c.id in joined
    ensures forall c :: c in Suggested(communities, joined) ==> c.id !in joined
    ensures forall c :: c in communities ==>
      (c in MyCommunities(communities, joined) <==> c !in Suggested(communities, joined))
  {
    FilterComplement(communities, (c: Community) => c.id in joined, (c: Community) => c.id !in joined);
  }

  datatype NetworkState = NetworkState(
    tab: NetworkTab, connectedUsers: seq<string>, joinedCommunities: seq<string>, searchQuery: string)

  class Network {
    var state: NetworkState

    constructor ()
      ensures state == NetworkState(PeopleTab, [], InitialCommunities, "")
    {
      state := NetworkState(PeopleTab, [], InitialCommunities, "");
    }

    /** The "Communities" counter. */
    function CommunityCount(): nat
      reads this
    {
      |state.joinedCommunities|
    }

    /** Connecting twice is the same as connecting once. */
    method Connect(userId: string)
      modifies this
      ensures state == old(state).(connectedUsers := AddOnce(old(state).connectedUsers, userId))
      ensures userId in state.connectedUsers
      ensures NoDuplicates(old(state).connectedUsers) ==> NoDuplicates(state.connectedUsers)
    {
      AddOnceProperties(state.connectedUsers, userId);
      state := state.(connectedUsers := AddOnce(state.connectedUsers, userId));
    }

    /** Joining appends the id with no check for an existing membership, so the counter
        grows by one on every join. */
    method JoinCommunity(id: string)
      modifies this
      ensures state == old(state).(joinedCommunities := old(state).joinedCommunities + [id])
      ensures CommunityCount() == old(CommunityCount()) + 1
    {
      state := state.(joinedCommunities := state.joinedCommunities + [id]);
    }

    /** The button of a suggested community: "Join" for open ones; "Request access" for
        the rest, which changes nothing. */
    method CommunityButton(c: Community)
      modifies this
      ensures c.access == Open ==>
        state == old(state).(joinedCommunities := old(state).joinedCommunities + [c.id])
      ensures c.access == Approval ==> state == old(state)
    {
      if c.access == Open {
        JoinCommunity(c.id);
      }
    }

    method SwitchTab(tab: NetworkTab)
      modifies this
      ensures state == old(state).(tab := tab)
    {
      state := state.(tab := tab);
    }

    method Search(query: string)
      modifies this
      ensures state == old(state).(searchQuery := query)
    {
      state := state.(searchQuery := query);
    }
  }
}
