/** The profile update route (`POST /api/user/update`): the body's `osuid`
    selects the user and every other field of the body is the update. */
module UserUpdate {
  import opened Js
  import opened Http
  import opened UserOperation

  /** Whether the handler called `updateProfile`, and with what. */
  datatype UpdateCall = NoCall | UpdateProfile(osuid: Json, data: map<string, Json>)

  datatype UpdateRouteOutcome = UpdateRouteOutcome(reply: Reply, call: UpdateCall)

  const InternalError := ErrorReply(500, "Internal server error")

  /** `const {osuid, ...updateData} = body`: the object's other own fields. */
  function Rest(fields: map<string, Json>): (r: map<string, Json>)
    ensures r.Keys == fields.Keys - {"osuid"}
    ensures forall k :: k in r ==> r[k] == fields[k]
  {
    fields - {"osuid"}
  }

  /** `POST`: `body` is what `request.json()` yields (None = it throws).
      A body that does not parse or is null is 500; a falsy `osuid`
      (absent, 0, '', false, null) is 400 with no call; otherwise
      `updateProfile` is called once with `osuid` and the rest of the body,
      and its result is the reply (500 when it throws). */
  function Post(body: Option<Json>, updateProfile: (Json, map<string, Json>) -> UpdateOutcome): (out: UpdateRouteOutcome)
    ensures body.None? || body == Some(JNull) ==> out == UpdateRouteOutcome(InternalError, NoCall)
    ensures body.Some? && !body.value.JNull? && !Truthy(Prop(body.value, "osuid")) ==>
      out == UpdateRouteOutcome(ErrorReply(400, "Missing osuid parameter"), NoCall)
    ensures out.call.UpdateProfile? <==> body.Some? && !body.value.JNull? && Truthy(Prop(body.value, "osuid"))
    ensures out.call.UpdateProfile? ==>
      && body.value.JObj?
      && out.call.osuid == body.value.fields["osuid"]
      && out.call.data == Rest(body.value.fields)
      && match updateProfile(out.call.osuid, out.call.data)
         case Updated(user) => out.reply == Reply(200, user, Keep)
         case UpdateFailed(_) => out.reply == InternalError
    ensures out.reply.cookie.Keep?
  {
    match body
    case None => UpdateRouteOutcome(InternalError, NoCall)
    case Some(b) =>
      if b.JNull? then UpdateRouteOutcome(InternalError, NoCall)
      else
        var osuid := Prop(b, "osuid");
        if !Truthy(osuid) then UpdateRouteOutcome(ErrorReply(400, "Missing osuid parameter"), NoCall)
        else
          var data := Rest(b.fields);
          match updateProfile(osuid.value, data)
          case Updated(user) => UpdateRouteOutcome(Reply(200, user, Keep), UpdateProfile(osuid.value, data))
          case UpdateFailed(_) => UpdateRouteOutcome(InternalError, UpdateProfile(osuid.value, data))
  }

  /** Nothing of the body is lost: the id and the update together are the
      body, and the id is not part of the update. */
  lemma CallReassemblesBody(body: Option<Json>, updateProfile: (Json, map<string, Json>) -> UpdateOutcome)
    requires Post(body, updateProfile).call.UpdateProfile?
    ensures var call := Post(body, updateProfile).call;
      && "osuid" !in call.data
      && call.data["osuid" := call.osuid] == body.value.fields
  {
    var call := Post(body, updateProfile).call;
    var fields := body.value.fields;
    assert call.data["osuid" := call.osuid].Keys == fields.Keys;
  }
}
