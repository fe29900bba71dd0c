/**
 * The body of an outbound message (`send`) and the mapping of the provider's
 * answers to the values `send` and `upload_file` return.
 */
module Message {
  import opened Wrappers
  import opened Json
  import opened Recipients

  /** The `errmsg` the provider answers on success. */
  const SuccessMarker: string := "ok"

  /** The message types the convenience operations use. */
  const TextType: string := "text"
  const MarkdownType: string := "markdown"
  const ImageType: string := "image"
  const FileType: string := "file"

  /** The delivery flags, fixed whatever the inputs. */
  const Flags: seq<(string, Value)> := [
    ("safe", Int(0)),
    ("enable_id_trans", Int(1)),
    ("enable_duplicate_check", Int(0)),
    ("duplicate_check_interval", Int(1800))
  ]

  /** The keys of the flags. */
  const FlagKeys: set<string> := set i | 0 <= i < |Flags| :: Flags[i].0

  lemma FlagKeysListed()
    ensures FlagKeys == {"safe", "enable_id_trans", "enable_duplicate_check", "duplicate_check_interval"}
  {
    assert Flags[0].0 in FlagKeys && Flags[1].0 in FlagKeys;
    assert Flags[2].0 in FlagKeys && Flags[3].0 in FlagKeys;
  }

  /** An optional string serialised as JSON: `None` becomes `null`. */
  function Nullable(x: Option<string>): Value
  {
    match x
    case None => Null
    case Some(s) => Str(s)
  }

  /** The payload keyed by the message type: both fields, even when unset. */
  function Payload(content: Option<string>, mediaId: Option<string>): Value
  {
    Object(FromEntries([("content", Nullable(content)), ("media_id", Nullable(mediaId))]))
  }

  /** The entries of the body's dict literal, in the order they are written. */
  function BodyEntries(msgType: string, users: seq<string>, agentId: string,
                       content: Option<string>, mediaId: Option<string>): seq<(string, Value)>
  {
    [ ("touser", Str(Join(users, Separator))),
      ("msgtype", Str(msgType)),
      ("agentid", Str(agentId)),
      (msgType, Payload(content, mediaId)) ] + Flags
  }

  /** The JSON body `send` posts. */
  function Body(msgType: string, users: seq<string>, agentId: string,
                content: Option<string>, mediaId: Option<string>): Value
  {
    Object(FromEntries(BodyEntries(msgType, users, agentId, content, mediaId)))
  }

  /** The fixed keys of the body, besides the one named by the message type. */
  const FixedKeys: set<string> := {"touser", "msgtype", "agentid", "safe", "enable_id_trans",
                                   "enable_duplicate_check", "duplicate_check_interval"}

  /** The value the source's literal gives each fixed key, when the message type does not reuse it. */
  function FixedValue(k: string, msgType: string, users: seq<string>, agentId: string): Value
    requires k in FixedKeys
  {
    if k == "touser" then Str(Join(users, Separator))
    else if k == "msgtype" then Str(msgType)
    else if k == "agentid" then Str(agentId)
    else if k == "enable_id_trans" then Int(1)
    else if k == "duplicate_check_interval" then Int(1800)
    else Int(0)
  }

  /**
   * Every field of the body. The message type's payload overrides `touser`,
   * `msgtype` or `agentid` when it reuses one of those keys, and is itself
   * overridden by a flag whose key it reuses, since a later entry of a dict
   * literal wins. Any other key is absent.
   */
  lemma BodyField(msgType: string, users: seq<string>, agentId: string,
                  content: Option<string>, mediaId: Option<string>, k: string)
    ensures Lookup(Body(msgType, users, agentId, content, mediaId).members, k) ==
      if k in FlagKeys then Some(FixedValue(k, msgType, users, agentId))
      else if k == msgType then Some(Payload(content, mediaId))
      else if k in FixedKeys then Some(FixedValue(k, msgType, users, agentId))
      else None
  {
    var es := BodyEntries(msgType, users, agentId, content, mediaId);
    LookupFromEntries(es, k);
    LastValuesOf(es[..4], k);
    LastValuesOf(Flags, k);
    assert es == es[..4] + Flags;
    LastValueAppend(es[..4], Flags, k);
  }

  /** The last value for `k` in four entries, written out. */
  lemma LastValuesOf(es: seq<(string, Value)>, k: string)
    requires |es| == 4
    ensures LastValue(es, k) ==
      if es[3].0 == k then Some(es[3].1)
      else if es[2].0 == k then Some(es[2].1)
      else if es[1].0 == k then Some(es[1].1)
      else if es[0].0 == k then Some(es[0].1)
      else None
  {
    assert es[..3][..2] == es[..2] && es[..2][..1] == es[..1] && es[..1][..0] == [];
    assert LastValue(es, k) == if es[3].0 == k then Some(es[3].1) else LastValue(es[..3], k);
    assert LastValue(es[..3], k) == if es[2].0 == k then Some(es[2].1) else LastValue(es[..2], k);
    assert LastValue(es[..2], k) == if es[1].0 == k then Some(es[1].1) else LastValue(es[..1], k);
    assert LastValue(es[..1], k) == if es[0].0 == k then Some(es[0].1) else LastValue([], k);
  }

  /** The flags have the same values whatever is sent, to whomever. */
  lemma BodyFlags(msgType: string, users: seq<string>, agentId: string,
                  content: Option<string>, mediaId: Option<string>)
    ensures var body := Body(msgType, users, agentId, content, mediaId).members;
      && Lookup(body, "safe") == Some(Int(0))
      && Lookup(body, "enable_id_trans") == Some(Int(1))
      && Lookup(body, "enable_duplicate_check") == Some(Int(0))
      && Lookup(body, "duplicate_check_interval") == Some(Int(1800))
  {
    FlagKeysListed();
    BodyField(msgType, users, agentId, content, mediaId, "safe");
    BodyField(msgType, users, agentId, content, mediaId, "enable_id_trans");
    BodyField(msgType, users, agentId, content, mediaId, "enable_duplicate_check");
    BodyField(msgType, users, agentId, content, mediaId, "duplicate_check_interval");
  }

  /**
   * For a message type that is not one of the body's fixed keys, the body
   * holds the joined recipients, the type, the application id and the
   * payload under the type, and the recipients can be read back from it.
   */
  lemma BodyContents(msgType: string, users: seq<string>, agentId: string,
                     content: Option<string>, mediaId: Option<string>)
    requires msgType !in FixedKeys
    ensures var body := Body(msgType, users, agentId, content, mediaId).members;
      && Lookup(body, "touser") == Some(Str(Join(users, Separator)))
      && Lookup(body, "msgtype") == Some(Str(msgType))
      && Lookup(body, "agentid") == Some(Str(agentId))
      && Lookup(body, msgType) == Some(Payload(content, mediaId))
    ensures |users| >= 1 && Separable(users, Separator) ==>
      Split(Join(users, Separator), Separator) == users
  {
    BodyField(msgType, users, agentId, content, mediaId, "touser");
    BodyField(msgType, users, agentId, content, mediaId, "msgtype");
    BodyField(msgType, users, agentId, content, mediaId, "agentid");
    BodyField(msgType, users, agentId, content, mediaId, msgType);
    if |users| >= 1 && Separable(users, Separator) {
      SplitJoin(users, Separator);
    }
  }

  /** The body is a proper dict: distinct keys, the fixed ones and the message type. */
  lemma BodyKeys(msgType: string, users: seq<string>, agentId: string,
                 content: Option<string>, mediaId: Option<string>)
    ensures var body := Body(msgType, users, agentId, content, mediaId).members;
      && DistinctKeys(body)
      && Keys(body) == FixedKeys + {msgType}
  {
    var es := BodyEntries(msgType, users, agentId, content, mediaId);
    FromEntriesKeys(es);
    var ks := set i | 0 <= i < |es| :: es[i].0;
    assert ks == FixedKeys + {msgType} by {
      assert es[0].0 == "touser" && es[1].0 == "msgtype" && es[2].0 == "agentid";
      assert es[3].0 == msgType && es[4].0 == "safe" && es[5].0 == "enable_id_trans";
      assert es[6].0 == "enable_duplicate_check" && es[7].0 == "duplicate_check_interval";
    }
  }

  /** The payload always carries both `content` and `media_id`, `null` when unset, and nothing else. */
  lemma PayloadFields(content: Option<string>, mediaId: Option<string>)
    ensures var p := Payload(content, mediaId).members;
      && Lookup(p, "content") == Some(Nullable(content))
      && Lookup(p, "media_id") == Some(Nullable(mediaId))
      && Keys(p) == {"content", "media_id"}
  {
    var es := [("content", Nullable(content)), ("media_id", Nullable(mediaId))];
    LookupFromEntries(es, "content");
    LookupFromEntries(es, "media_id");
    FromEntriesKeys(es);
    assert es[..1][..0] == [];
    var ks := set i | 0 <= i < |es| :: es[i].0;
    assert ks == {"content", "media_id"} by {
      assert es[0].0 == "content" && es[1].0 == "media_id";
    }
  }

  /** The provider's answer to a send request (its `errmsg` field). */
  datatype SendResponse = SendResponse(errmsg: string)

  /** The provider's answer to an upload request (its `errmsg` and `media_id` fields). */
  datatype UploadResponse = UploadResponse(errmsg: string, mediaId: string)

  /** What `send` returns for the provider's answer: delivered or not. */
  function Delivered(response: SendResponse): bool
  {
    response.errmsg == SuccessMarker
  }

  /** What `upload_file` returns for the provider's answer: the media id, or `""` on error. */
  function UploadedMediaId(response: UploadResponse): string
  {
    if response.errmsg != SuccessMarker then "" else response.mediaId
  }

  /** Answers other than `"ok"`, such as `""` or `"invalid user"`, are reported as not delivered. */
  lemma DeliveredExamples()
    ensures Delivered(SendResponse(SuccessMarker))
    ensures !Delivered(SendResponse("")) && !Delivered(SendResponse("invalid user"))
  {
  }

  /**
   * The upload result is empty exactly when the provider rejected the upload
   * or accepted it with an empty id; a non-empty result is always the id of
   * an accepted upload.
   */
  lemma UploadResultCases(response: UploadResponse)
    ensures UploadedMediaId(response) == "" <==> response.errmsg != SuccessMarker || response.mediaId == ""
    ensures UploadedMediaId(response) != "" ==>
      response.errmsg == SuccessMarker && UploadedMediaId(response) == response.mediaId
    ensures UploadedMediaId(UploadResponse(SuccessMarker, "X")) == "X"
    ensures UploadedMediaId(UploadResponse("invalid file", "X")) == ""
  {
  }

  /**
   * Every rejected upload, whatever id the answer carries, gives the same
   * result as an accepted upload whose id is empty: the caller cannot tell
   * them apart.
   */
  lemma UploadFailureIndistinguishable(errmsg: string, mediaId: string)
    requires errmsg != SuccessMarker
    ensures UploadedMediaId(UploadResponse(errmsg, mediaId)) == UploadedMediaId(UploadResponse(SuccessMarker, ""))
  {
  }
}
