/**
 * The domain service that keeps oversized message payloads out of the
 * message itself: a payload longer than 64,000 characters is written to the
 * bucket under a fresh `tmp/` key and replaced by a small envelope naming
 * that key and the message; any other payload passes through untouched.
 * The uuid and the serializer are parameters of the model.
 */
module LargePayloads {
  import opened Strings
  import opened Cloud
  import ProjectStack

  /** The longest payload that travels inline. */
  const MaxInlineLength := 64000

  /** The dictionary the serializer receives in place of the payload. */
  datatype Envelope = Envelope(payloadKey: string, name: string, type_: string, context: string, id: string)

  /** The object key of an offloaded payload. */
  function OffloadKey(uuid: string): (key: string)
    ensures StartsWith(key, "tmp/") && EndsWith(key, ".json")
    ensures |key| == |uuid| + 9
  {
    "tmp/" + uuid + ".json"
  }

  /** The uuid back out of an offload key. */
  function KeyUuid(key: string): string
    requires |key| >= 9
  {
    key[4..|key| - 5]
  }

  /** Offload keys are told apart by their uuid: distinct uuids never overwrite each other's payload. */
  lemma OffloadKeyRoundTrip(uuid: string)
    ensures KeyUuid(OffloadKey(uuid)) == uuid
  {
    var key := OffloadKey(uuid);
    assert key == "tmp/" + uuid + ".json";
    assert key[4..|key| - 5] == uuid;
  }

  lemma OffloadKeyInjective(u1: string, u2: string)
    ensures OffloadKey(u1) == OffloadKey(u2) ==> u1 == u2
  {
    OffloadKeyRoundTrip(u1);
    OffloadKeyRoundTrip(u2);
  }

  /**
   * `StoreLargePayloadsInS3.__call__`: `stored` is what the caller gets
   * back, `puts` the S3 requests issued.
   */
  method StoreLargePayload(bucket: string, serialize: Envelope -> string, uuid: string,
                           payload: string, name: string, context: string, type_: string, id: string)
    returns (stored: string, puts: seq<Call>)
    ensures |payload| <= MaxInlineLength ==> stored == payload && puts == []
    ensures |payload| > MaxInlineLength ==>
              && puts == [PutObject(bucket, OffloadKey(uuid), Text(payload))]
              && stored == serialize(Envelope(puts[0].key, name, type_, context, id))
  {
    stored, puts := payload, [];
    if |payload| > MaxInlineLength {
      var key := OffloadKey(uuid);
      puts := [PutObject(bucket, key, Text(payload))];
      stored := serialize(Envelope(key, name, type_, context, id));
    }
  }

  /**
   * An offloaded payload lies under the prefix that the project stack's
   * lifecycle rule expires after one day, so offloaded payloads in the
   * deployment bucket are temporary.
   */
  lemma OffloadedPayloadsExpire(uuid: string)
    ensures StartsWith(OffloadKey(uuid), ProjectStack.TmpRule.prefix)
    ensures ProjectStack.TmpRule.expirationInDays == 1
  {
    var key := OffloadKey(uuid);
    assert key[..3] == "tmp";
  }
}
