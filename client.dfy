/**
 * The messaging client: its configuration, the token cache it updates in
 * place, and its operations. Every operation first resolves the token, then
 * makes one request; the requests are returned as values instead of being
 * sent, and the provider's answers are inputs.
 */
module Client {
  import opened Wrappers
  import opened TokenCache
  import opened Json
  import opened Message
  import opened Paths

  /** The send request: the access token in the query string and the JSON body. */
  datatype SendRequest = SendRequest(accessToken: string, body: Value)

  /** The upload request: token and media category in the query string, the local file and the name it is stored under. */
  datatype UploadRequest = UploadRequest(accessToken: string, mediaType: string, filepath: string, filename: string)

  /** The media category every upload uses. */
  const UploadMediaType: string := "file"

  class WechatWork {
    const corpid: string
    const appid: string
    const corpsecret: string
    var accessToken: Option<string>
    var accessTokenExpiresTime: Option<int>

    /** The cache fields as a value. */
    function State(): Cache
      reads this
    {
      Cache(accessToken, accessTokenExpiresTime)
    }

    /** The configuration stored, the cache not yet filled (both fields absent). */
    constructor Unconnected(corpid: string, appid: string, corpsecret: string)
      ensures this.corpid == corpid && this.appid == appid && this.corpsecret == corpsecret
      ensures State() == Empty
    {
      this.corpid := corpid;
      this.appid := appid;
      this.corpsecret := corpsecret;
      accessToken := None;
      accessTokenExpiresTime := None;
    }

    /**
     * `WechatWork(corpid, appid, corpsecret)`: stores the configuration and
     * fetches a first token, which it stores again as the cached token. It
     * raises when that fetch brings no token.
     */
    static method Connect(corpid: string, appid: string, corpsecret: string, env: TokenEnv)
      returns (r: Result<WechatWork, Failure>)
      ensures var s := Acquire(Empty, env);
        && s.fetched
        && (s.result.Failure? ==> r == Failure(s.result.error))
        && (s.result.Success? ==>
              && r.Success? && fresh(r.value)
              && r.value.corpid == corpid && r.value.appid == appid && r.value.corpsecret == corpsecret
              && r.value.State() == s.cache
              && r.value.accessToken == Some(s.result.value))
    {
      var client := new WechatWork.Unconnected(corpid, appid, corpsecret);
      var token, _ := client.GetAccessToken(env);
      if token.Failure? {
        return Failure(token.error);
      }
      client.accessToken := Some(token.value);
      r := Success(client);
    }

    /** `get_access_token`: the cached token while usable, otherwise a fetched one. */
    method GetAccessToken(env: TokenEnv) returns (r: Result<string, Failure>, fetched: bool)
      modifies this`accessToken, this`accessTokenExpiresTime
      ensures var s := Acquire(old(State()), env);
        r == s.result && fetched == s.fetched && State() == s.cache
      ensures !fetched <==> Usable(old(State()), env.now)
      ensures r.Failure? ==> State() == old(State())
      ensures r.Success? ==> accessToken == Some(r.value)
    {
      if accessTokenExpiresTime.Some? && accessToken.Some? && accessToken.value != ""
         && env.now < accessTokenExpiresTime.value {
        return Success(accessToken.value), false;
      }
      fetched := true;
      var token := env.fetch.accessToken;
      if token.None? {
        return Failure(TokenUnavailable), fetched;
      }
      accessToken := token;
      accessTokenExpiresTime := Some(env.later + env.fetch.expiresIn - ExpiryMargin);
      r := Success(token.value);
    }

    /**
     * `upload_file(filepath, filename)`: resolves the token, then uploads;
     * returns the media id, or `""` when the provider reports an error.
     */
    method UploadFile(filepath: string, filename: string, env: TokenEnv, response: UploadResponse)
      returns (r: Result<string, Failure>, request: Option<UploadRequest>)
      modifies this`accessToken, this`accessTokenExpiresTime
      ensures var s := Acquire(old(State()), env);
        && State() == s.cache
        && (s.result.Failure? ==> r == Failure(s.result.error) && request.None?)
        && (s.result.Success? ==>
              && request == Some(UploadRequest(s.result.value, UploadMediaType, filepath, filename))
              && r == Success(UploadedMediaId(response)))
      ensures r.Success? ==> (r.value == response.mediaId <== response.errmsg == SuccessMarker)
      ensures r.Success? && response.errmsg != SuccessMarker ==> r.value == ""
    {
      var token, _ := GetAccessToken(env);
      if token.Failure? {
        return Failure(token.error), None;
      }
      request := Some(UploadRequest(token.value, UploadMediaType, filepath, filename));
      if response.errmsg != SuccessMarker {
        return Success(""), request;
      }
      r := Success(response.mediaId);
    }

    /**
     * `send(msg_type, users, content, media_id)`: resolves the token, then
     * posts the body built from the arguments; true exactly when the
     * provider answers `"ok"`.
     */
    method Send(msgType: string, users: seq<string>, content: Option<string>, mediaId: Option<string>,
                env: TokenEnv, response: SendResponse)
      returns (r: Result<bool, Failure>, request: Option<SendRequest>)
      modifies this`accessToken, this`accessTokenExpiresTime
      ensures var s := Acquire(old(State()), env);
        && State() == s.cache
        && (s.result.Failure? ==> r == Failure(s.result.error) && request.None?)
        && (s.result.Success? ==>
              && request == Some(SendRequest(s.result.value, Body(msgType, users, appid, content, mediaId)))
              && r == Success(Delivered(response)))
      ensures r.Success? ==> (r.value <==> response.errmsg == SuccessMarker)
    {
      var token, _ := GetAccessToken(env);
      if token.Failure? {
        return Failure(token.error), None;
      }
      request := Some(SendRequest(token.value, Body(msgType, users, appid, content, mediaId)));
      r := Success(response.errmsg == SuccessMarker);
    }

    /** `send_text(content, users)`: a text message with no media id. */
    method SendText(content: string, users: seq<string>, env: TokenEnv, response: SendResponse)
      returns (r: Result<bool, Failure>, request: Option<SendRequest>)
      modifies this`accessToken, this`accessTokenExpiresTime
      ensures var s := Acquire(old(State()), env);
        && State() == s.cache
        && (s.result.Failure? ==> r == Failure(s.result.error) && request.None?)
        && (s.result.Success? ==>
              && request == Some(SendRequest(s.result.value, Body(TextType, users, appid, Some(content), None)))
              && r == Success(Delivered(response)))
    {
      r, request := Send(TextType, users, Some(content), None, env, response);
    }

    /** `send_markdown(content, users)`: a markdown message with no media id. */
    method SendMarkdown(content: string, users: seq<string>, env: TokenEnv, response: SendResponse)
      returns (r: Result<bool, Failure>, request: Option<SendRequest>)
      modifies this`accessToken, this`accessTokenExpiresTime
      ensures var s := Acquire(old(State()), env);
        && State() == s.cache
        && (s.result.Failure? ==> r == Failure(s.result.error) && request.None?)
        && (s.result.Success? ==>
              && request == Some(SendRequest(s.result.value, Body(MarkdownType, users, appid, Some(content), None)))
              && r == Success(Delivered(response)))
    {
      r, request := Send(MarkdownType, users, Some(content), None, env, response);
    }

    /**
     * `send_image(image_path, users)`: uploads the file under its base name,
     * then sends an image message with the media id the upload returned
     * (possibly `""`) and no content.
     */
    method SendImage(imagePath: string, users: seq<string>,
                     uploadEnv: TokenEnv, uploadResponse: UploadResponse,
                     sendEnv: TokenEnv, sendResponse: SendResponse)
      returns (r: Result<bool, Failure>, upload: Option<UploadRequest>, request: Option<SendRequest>)
      modifies this`accessToken, this`accessTokenExpiresTime
      ensures MediaMessageSent(ImageType, imagePath, users, appid, old(State()), uploadEnv, uploadResponse,
                               sendEnv, sendResponse, r, upload, request, State())
    {
      var mediaId;
      mediaId, upload := UploadFile(imagePath, BaseName(imagePath), uploadEnv, uploadResponse);
      if mediaId.Failure? {
        return Failure(mediaId.error), upload, None;
      }
      r, request := Send(ImageType, users, None, Some(mediaId.value), sendEnv, sendResponse);
    }

    /** `send_file(file_path, users)`: as `SendImage`, with message type `"file"`. */
    method SendFile(filePath: string, users: seq<string>,
                    uploadEnv: TokenEnv, uploadResponse: UploadResponse,
                    sendEnv: TokenEnv, sendResponse: SendResponse)
      returns (r: Result<bool, Failure>, upload: Option<UploadRequest>, request: Option<SendRequest>)
      modifies this`accessToken, this`accessTokenExpiresTime
      ensures MediaMessageSent(FileType, filePath, users, appid, old(State()), uploadEnv, uploadResponse,
                               sendEnv, sendResponse, r, upload, request, State())
    {
      var mediaId;
      mediaId, upload := UploadFile(filePath, BaseName(filePath), uploadEnv, uploadResponse);
      if mediaId.Failure? {
        return Failure(mediaId.error), upload, None;
      }
      r, request := Send(FileType, users, None, Some(mediaId.value), sendEnv, sendResponse);
    }
  }

  /**
   * What uploading `path` and then sending a `msgType` message does, from
   * cache `before` to cache `after`: the upload resolves a token and is made
   * under the base name of the path; if that raises, nothing else happens.
   * Otherwise the send resolves a token from the cache the upload left and
   * posts the media id the upload returned, with no content.
   */
  ghost predicate MediaMessageSent(msgType: string, path: string, users: seq<string>, appid: string,
                                   before: Cache, uploadEnv: TokenEnv, uploadResponse: UploadResponse,
                                   sendEnv: TokenEnv, sendResponse: SendResponse,
                                   r: Result<bool, Failure>, upload: Option<UploadRequest>,
                                   request: Option<SendRequest>, after: Cache)
  {
    var s1 := Acquire(before, uploadEnv);
    if s1.result.Failure? then
      r == Failure(s1.result.error) && upload.None? && request.None? && after == s1.cache
    else
      var s2 := Acquire(s1.cache, sendEnv);
      && upload == Some(UploadRequest(s1.result.value, UploadMediaType, path, BaseName(path)))
      && after == s2.cache
      && (s2.result.Failure? ==> r == Failure(s2.result.error) && request.None?)
      && (s2.result.Success? ==>
            && request == Some(SendRequest(s2.result.value,
                                           Body(msgType, users, appid, None, Some(UploadedMediaId(uploadResponse)))))
            && r == Success(Delivered(sendResponse)))
  }
}
