/**
 * Example requests and their responses: concrete windows and identifiers,
 * and requests built from any valid identifiers.
 */
module Scenarios {
  import opened Wrappers
  import opened Text
  import opened Validation
  import opened Rows
  import opened Handler

  const DeviceA := "123e4567-e89b-42d3-a456-426614174000"
  const DeviceB := "9B2C1D3E-5F60-4A7B-8C9D-0E1F2A3B4C5D"

  lemma TimeWindowExamples()
    ensures TimeWindowPatternTest("1m") && TimeWindowPatternTest("2h") && TimeWindowPatternTest("30d")
    ensures !TimeWindowPatternTest("") && !TimeWindowPatternTest("0m") && !TimeWindowPatternTest("5")
    ensures !TimeWindowPatternTest("m5") && !TimeWindowPatternTest("5x") && !TimeWindowPatternTest("1m\n")
    ensures !TimeWindowPatternTest("1M") && !TimeWindowPatternTest("01h")
  {
  }

  /** A lower-case identifier passes the pattern. */
  lemma LowerCaseUuidAccepted()
    ensures UuidPatternTest(DeviceA)
  {
    assert IsUuidV4(DeviceA);
    UuidPatternIsUuidV4(DeviceA);
  }

  /** An upper-case identifier passes the pattern too: it carries the `i` flag. */
  lemma UpperCaseUuidAccepted()
    ensures UuidPatternTest(DeviceB)
  {
    assert IsUuidV4(DeviceB);
    UuidPatternIsUuidV4(DeviceB);
  }

  /** A wrong version digit fails the pattern. */
  lemma WrongVersionRejected()
    ensures !UuidPatternTest("123e4567-e89b-32d3-a456-426614174000")
  {
    var s := "123e4567-e89b-32d3-a456-426614174000";
    assert s[14] == '3';
  }

  /** A wrong variant digit fails the pattern. */
  lemma WrongVariantRejected()
    ensures !UuidPatternTest("123e4567-e89b-42d3-c456-426614174000")
  {
    var s := "123e4567-e89b-42d3-c456-426614174000";
    assert s[19] == 'c';
  }

  /** A trailing line break fails the pattern: `$` matches only at the end of the input. */
  lemma TrailingNewlineRejected()
    ensures !UuidPatternTest(DeviceA + "\n")
  {
    assert |DeviceA + "\n"| == 37;
  }

  /** `ids=<u1>,<u2>&timeWindow=2h`: both identifiers and the window are echoed. */
  lemma TwoDevicesEchoed(u1: string, u2: string, rows: seq<Row>)
    requires IsUuidV4(u1) && IsUuidV4(u2)
    ensures Handle(Request(Some("2h"), Some(u1 + "," + u2), None), Answered(rows))
         == Response(200, Some(JsonCorsHeaders), MultiDeviceBody(SuccessMessage, [u1, u2], "2h", Map(DecodeMultiRow, rows)))
  {
    UuidHasNoDelimiter(u1);
    UuidHasNoDelimiter(u2);
    SplitJoin([u1, u2], ',');
    assert Join([u1, u2], ",") == u1 + "," + u2;
    UuidPatternIsUuidV4(u1);
    UuidPatternIsUuidV4(u2);
  }

  /** `ids=<u>,not-a-uuid`: one bad identifier rejects the whole list. */
  lemma OneBadIdRejects(u: string, bad: string, up: Upstream)
    requires IsUuidV4(u) && ',' !in bad && !IsUuidV4(bad)
    ensures Handle(Request(None, Some(u + "," + bad), None), up) == BadRequest(InvalidIdsMessage)
  {
    UuidHasNoDelimiter(u);
    SplitJoin([u, bad], ',');
    assert Join([u, bad], ",") == u + "," + bad;
    UuidPatternIsUuidV4(bad);
  }

  /** An empty `ids`, or one with an empty segment, is rejected even beside a valid `deviceId`. */
  lemma EmptySegmentsRejected(u: string, up: Upstream)
    requires IsUuidV4(u)
    ensures Handle(Request(None, Some(""), Some(u)), up) == BadRequest(InvalidIdsMessage)
    ensures Handle(Request(None, Some(u + ",," + u), None), up) == BadRequest(InvalidIdsMessage)
  {
    UuidHasNoDelimiter(u);
    SplitJoin([u, "", u], ',');
    assert Join(["", u], ",") == "," + u;
    assert Join([u, "", u], ",") == u + "," + ("," + u);
    assert u + "," + ("," + u) == u + ",," + u;
  }

  /** A path `deviceId` with no window gets the one-minute default. */
  lemma SingleDeviceDefaultWindow(u: string, rows: seq<Row>)
    requires IsUuidV4(u)
    ensures Handle(Request(None, None, Some(u)), Answered(rows))
         == Response(200, Some(JsonCorsHeaders), SingleDeviceBody(SuccessMessage, u, "1m", Map(DecodeSingleRow, rows)))
  {
    UuidPatternIsUuidV4(u);
  }

  /** Neither `ids` nor a non-empty `deviceId`: rejected. */
  lemma NoDeviceExamples(up: Upstream)
    ensures Handle(Request(None, None, None), up) == BadRequest(MissingDeviceMessage)
    ensures Handle(Request(Some("3d"), None, Some("")), up) == BadRequest(MissingDeviceMessage)
  {
  }

  /** An upstream failure with a message, and one thrown as a non-`Error`. */
  lemma FailureExamples(u: string)
    requires IsUuidV4(u)
    ensures Handle(Request(None, None, Some(u)), Threw(Some("throttled"))).body
         == FailureBody(QueryErrorMessage, "throttled")
    ensures Handle(Request(None, None, Some(u)), Threw(None)).body
         == FailureBody(QueryErrorMessage, UnknownError)
  {
    UuidPatternIsUuidV4(u);
  }
}
