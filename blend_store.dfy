/** The client's blend store (vercel-serverless/frontend/src/lib/blendStore.ts): pending invites, the
    user's blends and the blend being viewed, updated locally after each request.

    Whether a token is present, the time, and what the server answered are parameters; a method that
    throws in the source returns the error instead, before any state change. */
module BlendStore {
  import opened Common

  datatype InviteStatus = Pending | Accepted | Rejected

  datatype Invite = Invite(id: string, senderId: string, receiverId: string, status: InviteStatus)

  datatype Blend = Blend(id: string, name: string, user1Id: string, user2Id: string)

  const InvitesWindowMs: int := 45000
  const BlendsWindowMs: int := 30000

  function InviteId(i: Invite): string {
    i.id
  }

  function BlendId(b: Blend): string {
    b.id
  }

  /** The blend being viewed after leaving blend `id`: cleared only if it is that blend. */
  function CurrentAfterLeave(current: Option<Blend>, id: string): (r: Option<Blend>)
    ensures current.Some? && current.value.id == id ==> r.None?
    ensures !(current.Some? && current.value.id == id) ==> r == current
    ensures r.Some? ==> r.value.id != id
  {
    if current.Some? && current.value.id == id then None else current
  }

  datatype StoreData = StoreData(
    invites: seq<Invite>, blends: seq<Blend>, currentBlend: Option<Blend>, loading: bool,
    lastInvitesFetch: Option<int>, lastBlendsFetch: Option<int>)

  class BlendStore {
    var invites: seq<Invite>
    var blends: seq<Blend>
    var currentBlend: Option<Blend>
    var loading: bool
    var lastInvitesFetch: Option<int>
    var lastBlendsFetch: Option<int>

    function Data(): StoreData
      reads this
    {
      StoreData(invites, blends, currentBlend, loading, lastInvitesFetch, lastBlendsFetch)
    }

    constructor ()
      ensures Data() == StoreData([], [], None, false, None, None)
    {
      invites, blends, currentBlend, loading, lastInvitesFetch, lastBlendsFetch := [], [], None, false, None, None;
    }

    /** `sendInvite(email)`: changes nothing locally either way. */
    method SendInvite(token: bool, ok: bool, serverError: Option<string>) returns (thrown: Option<string>)
      ensures !token ==> thrown == Some("Not authenticated")
      ensures token && !ok ==> thrown == Some(ErrorMessage(serverError, "Failed to send invite"))
      ensures token && ok ==> thrown.None?
    {
      if !token {
        return Some("Not authenticated");
      }
      if !ok {
        return Some(ErrorMessage(serverError, "Failed to send invite"));
      }
      thrown := None;
    }

    /** `fetchInvites(force)`: no loading flag, and a failure changes nothing. */
    method FetchInvites(force: bool, token: bool, now: int, ok: bool, data: seq<Invite>)
      modifies this
      ensures Data() == if token && !Throttled(force, old(lastInvitesFetch), now, InvitesWindowMs) && ok
                        then old(Data()).(invites := data, lastInvitesFetch := Some(now))
                        else old(Data())
    {
      if !token {
        return;
      }
      if !force && lastInvitesFetch.Some? && lastInvitesFetch.value != 0 && now - lastInvitesFetch.value < InvitesWindowMs {
        return;
      }
      if ok {
        invites, lastInvitesFetch := data, Some(now);
      }
    }

    /** `acceptInvite(inviteId)`: the invite leaves the list and the new blend goes first. */
    method AcceptInvite(inviteId: string, token: bool, ok: bool, serverError: Option<string>, blend: Blend)
      returns (r: Result<Blend>)
      modifies this
      ensures !token ==> r == Failure("Not authenticated") && Data() == old(Data())
      ensures token && !ok ==> r == Failure(ErrorMessage(serverError, "Failed to accept invite")) && Data() == old(Data())
      ensures token && ok ==> r == Ok(blend) && Data() == old(Data()).(
        invites := RemoveWhere(old(invites), InviteId, inviteId), blends := [blend] + old(blends))
    {
      if !token {
        return Failure("Not authenticated");
      }
      if !ok {
        return Failure(ErrorMessage(serverError, "Failed to accept invite"));
      }
      invites, blends := RemoveWhere(invites, InviteId, inviteId), [blend] + blends;
      r := Ok(blend);
    }

    method RejectInvite(inviteId: string, token: bool, ok: bool, serverError: Option<string>)
      returns (thrown: Option<string>)
      modifies this
      ensures !token ==> thrown == Some("Not authenticated") && Data() == old(Data())
      ensures token && !ok ==> thrown == Some(ErrorMessage(serverError, "Failed to reject invite")) && Data() == old(Data())
      ensures token && ok ==> thrown.None? && Data() == old(Data()).(invites := RemoveWhere(old(invites), InviteId, inviteId))
    {
      if !token {
        return Some("Not authenticated");
      }
      if !ok {
        return Some(ErrorMessage(serverError, "Failed to reject invite"));
      }
      invites := RemoveWhere(invites, InviteId, inviteId);
      thrown := None;
    }

    /** `fetchBlends(force)`: raises the loading flag while the request runs. */
    method FetchBlends(force: bool, token: bool, now: int, ok: bool, data: seq<Blend>)
      modifies this
      ensures !token || Throttled(force, old(lastBlendsFetch), now, BlendsWindowMs) ==> Data() == old(Data())
      ensures token && !Throttled(force, old(lastBlendsFetch), now, BlendsWindowMs) ==>
        Data() == if ok then old(Data()).(blends := data, loading := false, lastBlendsFetch := Some(now))
                  else old(Data()).(loading := false)
    {
      if !token {
        return;
      }
      if !force && lastBlendsFetch.Some? && lastBlendsFetch.value != 0 && now - lastBlendsFetch.value < BlendsWindowMs {
        return;
      }
      loading := true;
      if ok {
        blends, loading, lastBlendsFetch := data, false, Some(now);
      } else {
        loading := false;
      }
    }

    /** `getBlend(id)` and `regenerateBlend(id)`: the answer becomes the blend being viewed. */
    method ShowBlend(token: bool, ok: bool, serverError: Option<string>, fallback: string, blend: Blend)
      returns (r: Result<Blend>)
      modifies this
      ensures !token ==> r == Failure("Not authenticated") && Data() == old(Data())
      ensures token && !ok ==> r == Failure(ErrorMessage(serverError, fallback)) && Data() == old(Data())
      ensures token && ok ==> r == Ok(blend) && Data() == old(Data()).(currentBlend := Some(blend))
    {
      if !token {
        return Failure("Not authenticated");
      }
      if !ok {
        return Failure(ErrorMessage(serverError, fallback));
      }
      currentBlend := Some(blend);
      r := Ok(blend);
    }

    /** `leaveBlend(id)`. */
    method LeaveBlend(id: string, token: bool, ok: bool, serverError: Option<string>) returns (thrown: Option<string>)
      modifies this
      ensures !token ==> thrown == Some("Not authenticated") && Data() == old(Data())
      ensures token && !ok ==> thrown == Some(ErrorMessage(serverError, "Failed to leave blend")) && Data() == old(Data())
      ensures token && ok ==> thrown.None? && Data() == old(Data()).(
        blends := RemoveWhere(old(blends), BlendId, id), currentBlend := CurrentAfterLeave(old(currentBlend), id))
      ensures token && ok ==> (forall b :: b in blends ==> b.id != id) && (currentBlend.Some? ==> currentBlend.value.id != id)
    {
      if !token {
        return Some("Not authenticated");
      }
      if !ok {
        return Some(ErrorMessage(serverError, "Failed to leave blend"));
      }
      blends, currentBlend := RemoveWhere(blends, BlendId, id), CurrentAfterLeave(currentBlend, id);
      thrown := None;
    }
  }
}
