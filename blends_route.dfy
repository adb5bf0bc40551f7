/** The blend routes (vercel-serverless/backend/src/routes/blends.ts): invites between two users, their
    acceptance or rejection, and the blends an accepted invite creates, over the tables `user`,
    `blendInvite`, `blend` and `blendTrack`.

    The authenticated user's id, the ids the database generates, the liked-track and play-history
    query results and `Math.random()` are parameters. */
module BlendsRoute {
  import opened Common
  import opened BlendTracks

  datatype User = User(id: string, email: string, name: Option<string>)

  datatype InviteStatus = Pending | Accepted | Rejected

  datatype InviteRow = InviteRow(id: string, senderId: string, receiverId: string, status: InviteStatus)

  datatype BlendRow = BlendRow(id: string, name: string, user1Id: string, user2Id: string)

  /** A handler's answer: the body of a 200 response, or an error status with its message. */
  datatype Reply<T> = Done(value: T) | Refused(code: int, error: string)

  datatype Tables = Tables(users: seq<User>, invites: seq<InviteRow>, blends: seq<BlendRow>, tracks: seq<BlendTrack>)

  function Email(u: User): string { u.email }
  function Id(u: User): string { u.id }

  /** `prisma.user.findUnique({ where: { email } })` with `key` = `Email`, and `where: { id }` with
      `key` = `Id`: the user whose key is `k`, if there is one. */
  function FindUser(users: seq<User>, key: User -> string, k: string): (r: Option<User>)
    ensures r.Some? ==> r.value in users && key(r.value) == k
    ensures r.None? <==> forall u :: u in users ==> key(u) != k
  {
    if users == [] then None
    else if key(users[0]) == k then Some(users[0])
    else FindUser(users[1..], key, k)
  }

  /** `user?.name || 'User'`: a missing user, a missing name and an empty name all read as `User`. */
  function DisplayName(user: Option<User>): (n: string)
    ensures n != ""
    ensures user.Some? && user.value.name.Some? && user.value.name.value != "" ==> n == user.value.name.value
    ensures user.None? || user.value.name.None? || user.value.name.value == "" ==> n == "User"
  {
    if user.Some? && user.value.name.Some? && user.value.name.value != "" then user.value.name.value else "User"
  }

  /** The blend name `"<name1> x <name2> Blend"`: both names can be read back from it. */
  function BlendName(name1: string, name2: string): (r: string)
    ensures |r| == |name1| + |name2| + 9
    ensures r[..|name1|] == name1 && r[|name1|..|name1| + 3] == " x "
    ensures r[|name1| + 3..|r| - 6] == name2 && r[|r| - 6..] == " Blend"
  {
    name1 + " x " + name2 + " Blend"
  }

  /** The invite connects `a` and `b`, in either direction. */
  predicate Between(inv: InviteRow, a: string, b: string) {
    (inv.senderId == a && inv.receiverId == b) || (inv.senderId == b && inv.receiverId == a)
  }

  predicate InviteExists(invites: seq<InviteRow>, a: string, b: string) {
    exists i :: 0 <= i < |invites| && Between(invites[i], a, b)
  }

  /** The invite table never holds two invites for the same pair of users, nor a self-invite. */
  ghost predicate InvitesWellFormed(invites: seq<InviteRow>) {
    && (forall i :: 0 <= i < |invites| ==> invites[i].senderId != invites[i].receiverId)
    && (forall i, j :: 0 <= i < j < |invites| ==> !Between(invites[j], invites[i].senderId, invites[i].receiverId))
  }

  /** `findFirst({ where: { id, receiverId: userId, status: 'pending' } })`: its index, or -1. */
  function FindPending(invites: seq<InviteRow>, id: string, userId: string): (r: int)
    ensures -1 <= r < |invites|
    ensures r == -1 <==> forall i :: 0 <= i < |invites| ==>
      !(invites[i].id == id && invites[i].receiverId == userId && invites[i].status == Pending)
    ensures 0 <= r ==> invites[r].id == id && invites[r].receiverId == userId && invites[r].status == Pending
  {
    if invites == [] then -1
    else if invites[0].id == id && invites[0].receiverId == userId && invites[0].status == Pending then 0
    else
      var r := FindPending(invites[1..], id, userId);
      if r == -1 then -1 else r + 1
  }

  /** `update({ where: { id }, data: { status } })`: only the rows with that id change, and only
      their status. */
  function SetStatus(invites: seq<InviteRow>, id: string, status: InviteStatus): (r: seq<InviteRow>)
    ensures |r| == |invites|
    ensures forall i :: 0 <= i < |invites| ==>
      r[i] == if invites[i].id == id then invites[i].(status := status) else invites[i]
  {
    if invites == [] then []
    else [if invites[0].id == id then invites[0].(status := status) else invites[0]] + SetStatus(invites[1..], id, status)
  }

  /** Answering an invite keeps the table well formed, and the same user cannot answer it again:
      a second accept or reject finds no pending invite and gets 404. */
  lemma AnswerIsFinal(invites: seq<InviteRow>, id: string, userId: string, status: InviteStatus)
    requires status != Pending
    ensures InvitesWellFormed(invites) ==> InvitesWellFormed(SetStatus(invites, id, status))
    ensures FindPending(SetStatus(invites, id, status), id, userId) == -1
  {
    var r := SetStatus(invites, id, status);
    forall i | 0 <= i < |r|
      ensures r[i].senderId == invites[i].senderId && r[i].receiverId == invites[i].receiverId
      ensures !(r[i].id == id && r[i].receiverId == userId && r[i].status == Pending)
    {
    }
    if InvitesWellFormed(invites) {
      forall i, j | 0 <= i < j < |r| ensures !Between(r[j], r[i].senderId, r[i].receiverId) {
        assert !Between(invites[j], invites[i].senderId, invites[i].receiverId);
      }
    }
  }

  /** `findFirst({ where: { id, OR: [{ user1Id: userId }, { user2Id: userId }] } })`: its index, or -1. */
  function FindMemberBlend(blends: seq<BlendRow>, id: string, userId: string): (r: int)
    ensures -1 <= r < |blends|
    ensures r == -1 <==> forall i :: 0 <= i < |blends| ==> !IsMember(blends[i], id, userId)
    ensures 0 <= r ==> IsMember(blends[r], id, userId)
  {
    if blends == [] then -1
    else if IsMember(blends[0], id, userId) then 0
    else
      var r := FindMemberBlend(blends[1..], id, userId);
      if r == -1 then -1 else r + 1
  }

  predicate IsMember(b: BlendRow, id: string, userId: string) {
    b.id == id && (b.user1Id == userId || b.user2Id == userId)
  }

  function TrackBlendId(t: BlendTrack): string {
    t.blendId
  }

  function BlendRowId(b: BlendRow): string {
    b.id
  }

  /** `blendTrack.findMany({ where: { blendId } })`. */
  function TracksOf(tracks: seq<BlendTrack>, blendId: string): (r: seq<BlendTrack>)
    ensures forall t :: t in r <==> t in tracks && t.blendId == blendId
  {
    if tracks == [] then []
    else (if tracks[0].blendId == blendId then [tracks[0]] else []) + TracksOf(tracks[1..], blendId)
  }

  /** Every blend track belongs to a blend that exists. */
  ghost predicate TracksBelong(tracks: seq<BlendTrack>, blends: seq<BlendRow>) {
    forall t :: t in tracks ==> exists b :: b in blends && b.id == t.blendId
  }

  lemma {:induction false} NoTracksOf(tracks: seq<BlendTrack>, id: string)
    requires forall t :: t in tracks ==> t.blendId != id
    ensures TracksOf(tracks, id) == []
  {
    if tracks != [] {
      assert tracks[0] in tracks;
      NoTracksOf(tracks[1..], id);
    }
  }

  /** Deleting a blend's tracks and then the blend leaves no track without its blend, and none of
      that blend. */
  lemma DeleteBlendKeepsTracksBelong(tracks: seq<BlendTrack>, blends: seq<BlendRow>, id: string)
    requires TracksBelong(tracks, blends)
    ensures TracksBelong(RemoveWhere(tracks, TrackBlendId, id), RemoveWhere(blends, BlendRowId, id))
    ensures TracksOf(RemoveWhere(tracks, TrackBlendId, id), id) == []
  {
    NoTracksOf(RemoveWhere(tracks, TrackBlendId, id), id);
    var ts := RemoveWhere(tracks, TrackBlendId, id);
    var bs := RemoveWhere(blends, BlendRowId, id);
    forall t | t in ts ensures exists b :: b in bs && b.id == t.blendId {
      var b :| b in blends && b.id == t.blendId;
      assert b in bs;
    }
  }

  class BlendDb {
    var users: seq<User>
    var invites: seq<InviteRow>
    var blends: seq<BlendRow>
    var tracks: seq<BlendTrack>

    function Data(): Tables
      reads this
    {
      Tables(users, invites, blends, tracks)
    }

    ghost predicate Valid()
      reads this
    {
      InvitesWellFormed(invites) && TracksBelong(tracks, blends)
    }

    constructor (users: seq<User>)
      ensures Data() == Tables(users, [], [], []) && Valid()
    {
      this.users, invites, blends, tracks := users, [], [], [];
    }

    /** `POST /invite`: 404 for an unknown email, 400 for oneself, 409 when an invite between the two
        users already exists in either direction and whatever its status; otherwise a pending
        invite is created. */
    method SendInvite(senderId: string, email: string, newId: string) returns (r: Reply<InviteRow>)
      requires Valid()
      modifies this
      ensures Valid()
      ensures FindUser(old(users), Email, email).None? ==>
        r == Refused(404, "User not found with that email") && Data() == old(Data())
      ensures FindUser(old(users), Email, email).Some? && FindUser(old(users), Email, email).value.id == senderId ==>
        r == Refused(400, "Cannot send blend invite to yourself") && Data() == old(Data())
      ensures FindUser(old(users), Email, email).Some? && FindUser(old(users), Email, email).value.id != senderId
              && InviteExists(old(invites), senderId, FindUser(old(users), Email, email).value.id) ==>
        r == Refused(409, "Blend invite already exists between these users") && Data() == old(Data())
      ensures r.Done? <==> FindUser(old(users), Email, email).Some? && FindUser(old(users), Email, email).value.id != senderId
                           && !InviteExists(old(invites), senderId, FindUser(old(users), Email, email).value.id)
      ensures r.Done? ==> r.value == InviteRow(newId, senderId, FindUser(old(users), Email, email).value.id, Pending)
                          && Data() == old(Data()).(invites := old(invites) + [r.value])
    {
      var receiver := FindUser(users, Email, email);
      if receiver.None? {
        return Refused(404, "User not found with that email");
      }
      if receiver.value.id == senderId {
        return Refused(400, "Cannot send blend invite to yourself");
      }
      if InviteExists(invites, senderId, receiver.value.id) {
        return Refused(409, "Blend invite already exists between these users");
      }
      var invite := InviteRow(newId, senderId, receiver.value.id, Pending);
      invites := invites + [invite];
      r := Done(invite);
    }

    /** `POST /invites/:id/accept`: only the receiver can accept a pending invite; otherwise 404.
        The invite becomes accepted and a blend of sender and receiver is created with its tracks. */
    method AcceptInvite(id: string, userId: string, newBlendId: string, src: Sources, random: nat -> real)
      returns (r: Reply<BlendRow>)
      requires Valid()
      requires forall n :: 0.0 <= random(n) < 1.0
      modifies this
      ensures Valid()
      ensures var k := FindPending(old(invites), id, userId);
        if k < 0 then r == Refused(404, "Invite not found or already processed") && Data() == old(Data())
        else
          var inv := old(invites)[k];
          && r == Done(BlendRow(newBlendId, BlendName(DisplayName(FindUser(old(users), Id, inv.senderId)), DisplayName(FindUser(old(users), Id, inv.receiverId))),
                                inv.senderId, inv.receiverId))
          && users == old(users)
          && invites == SetStatus(old(invites), id, Accepted)
          && blends == old(blends) + [r.value]
          && |tracks| >= |old(tracks)| && tracks[..|old(tracks)|] == old(tracks)
          && Generated(tracks[|old(tracks)|..], newBlendId, src, inv.senderId, inv.receiverId)
    {
      var k := FindPending(invites, id, userId);
      if k < 0 {
        return Refused(404, "Invite not found or already processed");
      }
      var inv := invites[k];
      AnswerIsFinal(invites, id, userId, Accepted);
      invites := SetStatus(invites, id, Accepted);
      var blend := CreateBlend(newBlendId, inv.senderId, inv.receiverId, src, random);
      r := Done(blend);
    }

    /** `createBlend(user1Id, user2Id)`: the named blend row, then its generated tracks. */
    method CreateBlend(newBlendId: string, user1Id: string, user2Id: string, src: Sources, random: nat -> real)
      returns (blend: BlendRow)
      requires TracksBelong(tracks, blends)
      requires forall n :: 0.0 <= random(n) < 1.0
      modifies this
      ensures TracksBelong(tracks, blends)
      ensures blend == BlendRow(newBlendId, BlendName(DisplayName(FindUser(users, Id, user1Id)), DisplayName(FindUser(users, Id, user2Id))), user1Id, user2Id)
      ensures users == old(users) && invites == old(invites) && blends == old(blends) + [blend]
      ensures |tracks| >= |old(tracks)| && tracks[..|old(tracks)|] == old(tracks)
      ensures Generated(tracks[|old(tracks)|..], newBlendId, src, user1Id, user2Id)
    {
      var name := BlendName(DisplayName(FindUser(users, Id, user1Id)), DisplayName(FindUser(users, Id, user2Id)));
      blend := BlendRow(newBlendId, name, user1Id, user2Id);
      blends := blends + [blend];
      var created := GenerateBlendTracks(newBlendId, user1Id, user2Id, src, random);
      AddTracks(created, newBlendId);
    }

    /** `blendTrack.createMany` for tracks of a blend that exists. */
    method AddTracks(created: seq<BlendTrack>, blendId: string)
      requires TracksBelong(tracks, blends)
      requires (exists b :: b in blends && b.id == blendId) && forall t :: t in created ==> t.blendId == blendId
      modifies this
      ensures TracksBelong(tracks, blends)
      ensures tracks == old(tracks) + created && users == old(users) && invites == old(invites) && blends == old(blends)
    {
      tracks := tracks + created;
    }

    /** `POST /invites/:id/reject`: only the receiver can reject a pending invite; otherwise 404. */
    method RejectInvite(id: string, userId: string) returns (r: Reply<bool>)
      requires Valid()
      modifies this
      ensures Valid()
      ensures FindPending(old(invites), id, userId) < 0 ==>
        r == Refused(404, "Invite not found or already processed") && Data() == old(Data())
      ensures FindPending(old(invites), id, userId) >= 0 ==>
        r == Done(true) && Data() == old(Data()).(invites := SetStatus(old(invites), id, Rejected))
    {
      if FindPending(invites, id, userId) < 0 {
        return Refused(404, "Invite not found or already processed");
      }
      AnswerIsFinal(invites, id, userId, Rejected);
      invites := SetStatus(invites, id, Rejected);
      r := Done(true);
    }

    /** `GET /:id`: the blend and its tracks, for a member only. */
    method GetBlend(id: string, userId: string) returns (r: Reply<(BlendRow, seq<BlendTrack>)>)
      ensures var k := FindMemberBlend(blends, id, userId);
        if k < 0 then r == Refused(404, "Blend not found") else r == Done((blends[k], TracksOf(tracks, id)))
    {
      var k := FindMemberBlend(blends, id, userId);
      if k < 0 {
        return Refused(404, "Blend not found");
      }
      r := Done((blends[k], TracksOf(tracks, id)));
    }

    /** `POST /:id/regenerate`: for a member only; the blend's tracks are replaced by newly
        generated ones. */
    method RegenerateBlend(id: string, userId: string, src: Sources, random: nat -> real) returns (r: Reply<BlendRow>)
      requires Valid()
      requires forall n :: 0.0 <= random(n) < 1.0
      modifies this
      ensures Valid()
      ensures var k := FindMemberBlend(old(blends), id, userId);
        if k < 0 then r == Refused(404, "Blend not found") && Data() == old(Data())
        else
          var b := old(blends)[k];
          && r == Done(b)
          && users == old(users) && invites == old(invites) && blends == old(blends)
          && var kept := RemoveWhere(old(tracks), TrackBlendId, id);
             |tracks| >= |kept| && tracks[..|kept|] == kept
             && Generated(tracks[|kept|..], id, src, b.user1Id, b.user2Id)
    {
      var k := FindMemberBlend(blends, id, userId);
      if k < 0 {
        return Refused(404, "Blend not found");
      }
      var b := blends[k];
      tracks := RemoveWhere(tracks, TrackBlendId, id);
      var created := GenerateBlendTracks(id, b.user1Id, b.user2Id, src, random);
      AddTracks(created, id);
      r := Done(b);
    }

    /** `DELETE /:id/leave`: for a member only; the blend's tracks and then the blend are deleted. */
    method LeaveBlend(id: string, userId: string) returns (r: Reply<string>)
      requires Valid()
      modifies this
      ensures Valid()
      ensures FindMemberBlend(old(blends), id, userId) < 0 ==> r == Refused(404, "Blend not found") && Data() == old(Data())
      ensures FindMemberBlend(old(blends), id, userId) >= 0 ==>
        r == Done("Blend closed successfully")
        && Data() == old(Data()).(tracks := RemoveWhere(old(tracks), TrackBlendId, id), blends := RemoveWhere(old(blends), BlendRowId, id))
      ensures FindMemberBlend(old(blends), id, userId) >= 0 ==>
        (forall b :: b in blends ==> b.id != id) && TracksOf(tracks, id) == []
    {
      if FindMemberBlend(blends, id, userId) < 0 {
        return Refused(404, "Blend not found");
      }
      DeleteBlendKeepsTracksBelong(tracks, blends, id);
      tracks := RemoveWhere(tracks, TrackBlendId, id);
      blends := RemoveWhere(blends, BlendRowId, id);
      r := Done("Blend closed successfully");
    }
  }
}
