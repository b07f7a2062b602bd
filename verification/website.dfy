/** WebsiteLogger: checks its two settings, then builds one form-encoded POST
    whose body is the query-string template with the URL-encoded report in
    its slot. HttpUtility.UrlEncode and the Encoding.Default byte encoding are
    parameters; the HTTP exchange itself is not part of this model. */
module Website {
  import opened Wrappers
  import opened Text
  import opened Exceptions

  type byte = x: int | 0 <= x < 256

  /** The logger's settable properties; a property never set is None (null). */
  datatype WebsiteLogger = WebsiteLogger(url: Option<string>, queryString: Option<string>)

  datatype PostRequest = PostRequest(
    uri: string,
    httpMethod: string,
    contentType: string,
    contentLength: nat,
    body: seq<byte>)

  const Slot: string := "{0}"
  const PostMethod: string := "POST"
  const FormContentType: string := "application/x-www-form-urlencoded"

  /** string.Format with one argument, restricted to templates without brace
      escapes: every "{0}" is replaced by the argument, scanning left to right. */
  function Format(template: string, arg: string): string
    decreases |template|
  {
    if |template| == 0 then ""
    else if |template| >= 3 && template[..3] == Slot then arg + Format(template[3..], arg)
    else [template[0]] + Format(template[1..], arg)
  }

  predicate SlotAt(t: string, i: int)
  {
    0 <= i && i + 3 <= |t| && t[i..i + 3] == Slot
  }

  ghost predicate HasSlot(t: string)
  {
    exists i :: SlotAt(t, i)
  }

  /** The names of the settings that are null or empty, in the order Url,
      QueryString. */
  function MissingSettings(l: WebsiteLogger): seq<string>
  {
    (if IsNullOrEmpty(l.url) then ["Url"] else []) +
    (if IsNullOrEmpty(l.queryString) then ["QueryString"] else [])
  }

  lemma NotSetMessages()
    ensures "Url" + " has not been set" == "Url has not been set"
    ensures "QueryString" + " has not been set" == "QueryString has not been set"
  {
  }

  /** The two guards of LogError, in source order: the exception names the
      first setting that is null or empty, and there is none exactly when no
      setting is missing. */
  function CheckSettings(l: WebsiteLogger): (c: Option<ArgumentException>)
    ensures c.None? <==> MissingSettings(l) == []
    ensures c.Some? ==> c.value.message == MissingSettings(l)[0] + " has not been set"
  {
    NotSetMessages();
    if IsNullOrEmpty(l.url) then Some(ArgumentException("Url has not been set"))
    else if IsNullOrEmpty(l.queryString) then Some(ArgumentException("QueryString has not been set"))
    else None
  }

  /** LogError up to the point where the request is sent: the request line,
      its headers and the body bytes. ContentLength is measured by writing the
      same parameters with the same encoding the body is written with. */
  function LogError(l: WebsiteLogger, error: string, urlEncode: string -> string, encode: string -> seq<byte>)
    : (r: Result<PostRequest, ArgumentException>)
    ensures r.Success? <==> !IsNullOrEmpty(l.url) && !IsNullOrEmpty(l.queryString)
    ensures IsNullOrEmpty(l.url) ==> r == Failure(ArgumentException("Url has not been set"))
    ensures !IsNullOrEmpty(l.url) && IsNullOrEmpty(l.queryString) ==>
      r == Failure(ArgumentException("QueryString has not been set"))
    ensures r.Success? ==>
      && r.value.uri == l.url.value
      && r.value.httpMethod == PostMethod
      && r.value.contentType == FormContentType
      && r.value.contentLength == |r.value.body|
  {
    match CheckSettings(l)
    case Some(x) => Failure(x)
    case None =>
      var parameters := Format(l.queryString.value, urlEncode(error));
      var measured := encode(parameters);
      var sent := encode(parameters);
      Success(PostRequest(l.url.value, PostMethod, FormContentType, |measured|, sent))
  }

  lemma {:induction false} FormatWithoutSlot(t: string, arg: string)
    requires !HasSlot(t)
    ensures Format(t, arg) == t
    decreases |t|
  {
    if |t| > 0 {
      assert !SlotAt(t, 0);
      var rest := t[1..];
      forall i | SlotAt(rest, i)
        ensures SlotAt(t, i + 1)
      {
        assert t[i + 1..i + 4] == rest[i..i + 3];
      }
      FormatWithoutSlot(rest, arg);
    }
  }

  /** The argument goes exactly where the slot was; the text on either side
      is formatted on its own. */
  lemma {:induction false} FormatAroundSlot(pre: string, post: string, arg: string)
    ensures Format(pre + Slot + post, arg) == Format(pre, arg) + arg + Format(post, arg)
    decreases |pre|
  {
    var t := pre + Slot + post;
    if |pre| == 0 {
      assert t == Slot + post;
      assert t[..3] == Slot;
      assert t[3..] == post;
    } else if |pre| >= 3 && pre[..3] == Slot {
      assert t[..3] == Slot;
      assert t[3..] == pre[3..] + Slot + post;
      FormatAroundSlot(pre[3..], post, arg);
    } else {
      if |pre| == 1 {
        assert t[1] == '{';
      } else if |pre| == 2 {
        assert t[2] == '{';
      } else {
        assert t[..3] == pre[..3];
      }
      assert !(|t| >= 3 && t[..3] == Slot);
      assert t[1..] == pre[1..] + Slot + post;
      FormatAroundSlot(pre[1..], post, arg);
    }
  }

  /** With a template holding a single "{0}" slot, the body is the template
      text around the slot with the URL-encoded report in it: the report
      reaches the request only through its URL encoding. */
  lemma SingleSlotBody(l: WebsiteLogger, error: string, urlEncode: string -> string,
                       encode: string -> seq<byte>, pre: string, post: string)
    requires !IsNullOrEmpty(l.url)
    requires l.queryString == Some(pre + Slot + post)
    requires !HasSlot(pre) && !HasSlot(post)
    ensures LogError(l, error, urlEncode, encode).Success?
    ensures LogError(l, error, urlEncode, encode).value.body == encode(pre + urlEncode(error) + post)
  {
    FormatAroundSlot(pre, post, urlEncode(error));
    FormatWithoutSlot(pre, urlEncode(error));
    FormatWithoutSlot(post, urlEncode(error));
  }

  /** Two reports with the same URL encoding produce the same request: the
      raw report text never enters the request. */
  lemma OnlyEncodedErrorSent(l: WebsiteLogger, error1: string, error2: string,
                             urlEncode: string -> string, encode: string -> seq<byte>)
    requires urlEncode(error1) == urlEncode(error2)
    ensures LogError(l, error1, urlEncode, encode) == LogError(l, error2, urlEncode, encode)
  {
  }
}
