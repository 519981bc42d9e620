/**
  The schemas of src/types/user-player.ts: the body of a seek request and
  the reply to it.
*/
module UserPlayerSchema {
  import opened Wrappers
  import opened Schema

  datatype UserPlayerSeekNewPosition = UserPlayerSeekNewPosition(newPositionMs: int)

  datatype UserPlayerSeekNewPositionResponse = UserPlayerSeekNewPositionResponse(message: string)

  /** `userPlayerSeekNewPositionSchema.parse(v)` */
  function ParseSeekNewPosition(v: Json): (r: Result<UserPlayerSeekNewPosition, Issue>)
    ensures r.Success? <==> IsObject(Some(v)) && IsPositiveInt(Field(Some(v), "newPositionMs"))
    ensures r.Success? ==> Field(Some(v), "newPositionMs") == Some(JNum(r.value.newPositionMs as real))
    ensures r.Success? ==> r.value.newPositionMs >= 1
  {
    var _ :- ExpectObject([], Some(v));
    var ms :- At([Key("newPositionMs")], ParsePositiveInt(Field(Some(v), "newPositionMs")));
    Success(UserPlayerSeekNewPosition(ms))
  }

  /** `userPlayerSeekNewPositionResponseSchema.parse(v)` */
  function ParseSeekNewPositionResponse(v: Json): (r: Result<UserPlayerSeekNewPositionResponse, Issue>)
    ensures r.Success? <==> IsObject(Some(v)) && IsNonEmptyString(Field(Some(v), "message"))
    ensures r.Success? ==> Field(Some(v), "message") == Some(JStr(r.value.message)) && |r.value.message| >= 1
  {
    var _ :- ExpectObject([], Some(v));
    var message :- At([Key("message")], ParseNonEmptyString(Field(Some(v), "message")));
    Success(UserPlayerSeekNewPositionResponse(message))
  }

  /** The JSON a seek body is sent as. */
  function SeekBodyJson(b: UserPlayerSeekNewPosition): Json {
    JObj(map["newPositionMs" := JNum(b.newPositionMs as real)])
  }

  /** A body passes its own schema exactly when its position is positive. */
  lemma SeekBodyRoundTrip(b: UserPlayerSeekNewPosition)
    ensures ParseSeekNewPosition(SeekBodyJson(b)).Success? <==> b.newPositionMs > 0
    ensures b.newPositionMs > 0 ==> ParseSeekNewPosition(SeekBodyJson(b)) == Success(b)
  {
    var v := Some(SeekBodyJson(b));
    assert Field(v, "newPositionMs") == Some(JNum(b.newPositionMs as real));
    assert (b.newPositionMs as real).Floor == b.newPositionMs;
  }

  /** A reply with an empty message, or none, is rejected. */
  lemma EmptyMessageRejected(v: Json)
    requires Field(Some(v), "message") == Some(JStr("")) || Field(Some(v), "message").None?
    ensures ParseSeekNewPositionResponse(v).Failure?
  {
  }
}
