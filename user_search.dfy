/** The user search route (`GET /api/user/search?type=…&value=…`): a lookup
    by osu! id or by username. */
module UserSearch {
  import opened Js
  import opened Http
  import opened UserOperation

  /** Which lookup the handler made. */
  datatype SearchCall = NoLookup | ByOsuid(osuid: int) | ByUsername(username: string)

  datatype SearchOutcome = SearchOutcome(reply: Reply, call: SearchCall)

  const MissingParameter := "Missing type or value parameter"
  const InvalidOsuid := "Invalid osuid"
  const InvalidType := "Invalid type parameter. Use \"osuid\" or \"username\""

  /** The reply to a lookup's outcome: the record, 404, or 500 when it throws. */
  function LookupReply(l: Lookup): (r: Reply)
    ensures r.cookie.Keep?
    ensures l.Found? <==> r.status == 200
    ensures l.Found? ==> r.body == JObj(l.record)
    ensures l.NotFound? ==> r == ErrorReply(404, "User not found")
    ensures l.LookupFailed? ==> r == ErrorReply(500, "Internal server error")
  {
    match l
    case Found(record) => Reply(200, JObj(record), Keep)
    case NotFound => ErrorReply(404, "User not found")
    case LookupFailed(_) => ErrorReply(500, "Internal server error")
  }

  /** `GET`: a missing or empty `type` or `value` is 400 before any lookup;
      `type=osuid` looks up `parseInt(value)` (400 when it is NaN),
      `type=username` looks up the raw value, any other type is 400. */
  function Search(typ: Option<string>, value: Option<string>,
                  getUserByOsuId: int -> Lookup, getUserByUsername: string -> Lookup): (out: SearchOutcome)
    ensures !Holds(typ, "") || !Holds(value, "") ==> out == SearchOutcome(ErrorReply(400, MissingParameter), NoLookup)
    ensures Holds(typ, "") && Holds(value, "") ==>
      && (typ.value == "osuid" && ParseInt(value.value).None? ==> out == SearchOutcome(ErrorReply(400, InvalidOsuid), NoLookup))
      && (typ.value == "osuid" && ParseInt(value.value).Some? ==>
            out == SearchOutcome(LookupReply(getUserByOsuId(ParseInt(value.value).value)), ByOsuid(ParseInt(value.value).value)))
      && (typ.value == "username" ==> out == SearchOutcome(LookupReply(getUserByUsername(value.value)), ByUsername(value.value)))
      && (typ.value != "osuid" && typ.value != "username" ==> out == SearchOutcome(ErrorReply(400, InvalidType), NoLookup))
    ensures out.call.NoLookup? <==> out.reply.status == 400
  {
    if !Holds(typ, "") || !Holds(value, "") then SearchOutcome(ErrorReply(400, MissingParameter), NoLookup)
    else if typ.value == "osuid" then
      match ParseInt(value.value)
      case None => SearchOutcome(ErrorReply(400, InvalidOsuid), NoLookup)
      case Some(osuid) => SearchOutcome(LookupReply(getUserByOsuId(osuid)), ByOsuid(osuid))
    else if typ.value == "username" then SearchOutcome(LookupReply(getUserByUsername(value.value)), ByUsername(value.value))
    else SearchOutcome(ErrorReply(400, InvalidType), NoLookup)
  }

  /** Searching by the decimal text of an osu! id looks up exactly that id. */
  lemma SearchByDecimalOsuid(osuid: int, getUserByOsuId: int -> Lookup, getUserByUsername: string -> Lookup)
    ensures Search(Some("osuid"), Some(Decimal(osuid)), getUserByOsuId, getUserByUsername).call == ByOsuid(osuid)
  {
    ParseIntDecimal(osuid);
  }

  /** `parseInt` reads a leading integer, so trailing text after the digits
      does not change the id looked up (`"123abc"` finds user 123). */
  lemma SearchIgnoresTrailingText(getUserByOsuId: int -> Lookup, getUserByUsername: string -> Lookup)
    ensures Search(Some("osuid"), Some("123abc"), getUserByOsuId, getUserByUsername).call == ByOsuid(123)
    ensures Search(Some("osuid"), Some("abc"), getUserByOsuId, getUserByUsername)
         == SearchOutcome(ErrorReply(400, InvalidOsuid), NoLookup)
  {
    var s := "123abc";
    assert !IsWhiteSpace(s[0]);
    assert TrimStart(s) == s;
    assert DigitValue(s[3], 10).None?;
    assert DigitPrefix(s[3..], 10) == 0;
    assert DigitPrefix(s, 10) == 3 by {
      assert s[1..][1..][1..] == s[3..];
    }
    assert s[..3] == "123";
    assert DigitsValue("123", 10) == 123 by {
      assert "123"[..2] == "12" && "12"[..1] == "1" && "1"[..0] == "";
    }
    assert ParseUnsigned(s) == Some(123);
    var t := "abc";
    assert !IsWhiteSpace(t[0]);
    assert TrimStart(t) == t;
    assert ParseUnsigned(t).None?;
  }
}
