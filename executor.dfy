/** WxApiExecutor: turns a resolved API method description and the call's
    arguments into an HTTP request (content-type header, body, URI carrying
    the access token), and classifies the transport's answer by its status.

    Reflection is replaced by a record per declared parameter (Param), the
    runtime class of each argument by Kind, and the collaborators the
    executor calls (the Jackson writer, the token manager, the
    `fromArgs` URI resolver, the transport and the response extractor) by
    inputs and function parameters. */
module WxApiExecutor {
  import opened Wrappers
  import opened MultiValue
  import opened UriComponents

  /** The query parameter that carries the access token. */
  const ACCESS_TOKEN_PARAM_NAME := "access_token"

  /** MediaType.APPLICATION_JSON and MediaType.TEXT_XML. */
  const APPLICATION_JSON := "application/json"
  const TEXT_XML := "text/xml"

  /** Spring's ValueConstants.DEFAULT_NONE: the value of an annotation
      attribute that was left unset. */
  const DEFAULT_NONE := "\n\t\t\n\t\t\n\U{E000}\U{E001}\U{E002}\n\t\t\t\t\n"

  /** The charset a Reader argument is transcoded with. */
  const UTF_8 := "UTF-8"

  // ---------------------------------------------------------------------
  // Data model
  // ---------------------------------------------------------------------

  /** The runtime class of a non-null argument, as far as the executor tells
      classes apart. */
  datatype Kind =
    | SimpleValue                   // String, boxed primitives, enums, dates ...
    | Bean                          // any other object
    | ResourceObject                // a Spring Resource
    | StreamSourceObject(opens: bool) // an InputStreamSource that is not a Resource;
                                    // opens: its getInputStream() does not throw
    | FileObject                    // java.io.File
    | InputStreamObject             // java.io.InputStream
    | ReaderObject                  // java.io.Reader

  /** `Resource.class.isAssignableFrom(arg.getClass())` */
  predicate IsResource(k: Kind)
  {
    k.ResourceObject?
  }

  /** `InputStreamSource.class.isAssignableFrom(arg.getClass())`: every
      Resource is an InputStreamSource too. */
  predicate IsInputStreamSource(k: Kind)
  {
    k.ResourceObject? || k.StreamSourceObject?
  }

  /** An argument: Java's null, or an object with its class, an identity and
      the string its toString() returns. */
  datatype Arg = Null | Obj(kind: Kind, id: nat, text: string)

  /** What the executor learns about a declared parameter by reflection. */
  datatype Param = Param(
    index: nat,                 // getParameterIndex(): position in the argument array
    isSimple: bool,             // BeanUtils.isSimpleValueType(getParameterType())
    hasBodyAnn: bool,           // annotated @WxApiBody
    formAnn: Option<string>,    // the value of its @WxApiForm annotation, if annotated
    name: Option<string>,       // getParameterName(); None when not compiled with -parameters
    isMultipart: bool)          // WxRequestUtils.isMutlipart(getParameterType())

  /** WxApiRequest.Method as the executor distinguishes it; OTHER stands for
      every further request method, which gets neither headers nor a body. */
  datatype RequestMethod = JSON | XML | FORM | OTHER

  /** The resolved method description, as far as building a request reads it. */
  datatype MethodInfo = MethodInfo(
    requestMethod: RequestMethod,
    httpMethod: string,         // getRequestMethod().getHttpMethod()
    params: seq<Param>)         // getMethodParameters(), in declared order

  /** Why a call fails. */
  datatype Error =
    | NoBodyParameter             // WxAppException: no parameter can be the body
    | MissingParameterName        // WxAppAssert.notNull on the form field name
    | NullArgument                // NullPointerException: getClass() on a null file argument
    | ClassCast                   // ClassCastException: a cast in getFormResource fails
    | StreamOpenFailed            // WxAppException wrapping getInputStream()'s IOException
    | ResponseStatus(status: nat, body: string) // WxApiResponseException: status is not 2xx

  /** The byte streams a file argument can end up as. */
  datatype InputStream =
    | Direct(source: Arg)                          // the argument itself
    | OpenedFrom(source: Arg)                      // source.getInputStream()
    | ReaderInputStream(reader: Arg, charset: string) // lazily transcodes a Reader

  /** The resources a file argument can end up as. */
  datatype Resource =
    | Given(source: Arg)                  // the argument, already a Resource
    | FileSystemResource(file: Arg)
    | InputStreamResource(stream: InputStream)

  /** A form field value: the argument itself, or the resource made from it. */
  datatype FormValue = AsIs(arg: Arg) | Attached(resource: Resource)

  /** The request body: none (null), a string, an object handed to the
      message converters as it is, or the multi-valued form field map. */
  datatype Body =
    | NoBody
    | Text(text: string)
    | Raw(arg: Arg)
    | FormFields(fields: MultiValueMap<FormValue>)

  /** HttpHeaders carrying only a content type. */
  datatype Headers = Headers(contentType: string)

  datatype RequestEntity = RequestEntity(
    body: Body,
    headers: Option<Headers>,   // None: the entity is built with null headers
    httpMethod: string,
    uri: Uri)

  datatype Response = Response(status: nat, body: string)

  /** Jackson's writeValueAsString: None where it throws JsonProcessingException. */
  type JsonWriter = Arg -> Option<string>

  /** Every declared parameter indexes into the argument array, as a
      reflective invocation guarantees. */
  predicate ArgsFit(ps: seq<Param>, args: seq<Arg>)
  {
    forall p :: p in ps ==> p.index < |args|
  }

  /** `arg.toString()`, or "" for a null argument. */
  function StringOrEmpty(arg: Arg): string
  {
    if arg.Null? then "" else arg.text
  }

  // ---------------------------------------------------------------------
  // JSON and XML bodies
  // ---------------------------------------------------------------------

  /** The filter of getStringBody and getObjectBody. */
  predicate BodyCandidate(p: Param)
  {
    p.isSimple || p.hasBodyAnn
  }

  /** `stream().filter(BodyCandidate).findFirst()`, as a position in ps. */
  function FirstBodyParam(ps: seq<Param>): (r: Option<nat>)
    ensures r.Some? ==> r.value < |ps| && BodyCandidate(ps[r.value])
    ensures r.Some? ==> forall j :: 0 <= j < r.value ==> !BodyCandidate(ps[j])
    ensures r.None? <==> forall j :: 0 <= j < |ps| ==> !BodyCandidate(ps[j])
  {
    if ps == [] then None
    else if BodyCandidate(ps[0]) then Some(0)
    else
      match FirstBodyParam(ps[1..])
      case None => None
      case Some(i) => Some(i + 1)
  }

  /** getStringBody: the JSON-mode body. */
  function GetStringBody(ps: seq<Param>, args: seq<Arg>, json: JsonWriter): (r: Result<string, Error>)
    requires ArgsFit(ps, args)
    ensures r.Err? <==> forall j :: 0 <= j < |ps| ==> !BodyCandidate(ps[j])
    ensures r.Err? ==> r.error == NoBodyParameter
  {
    match FirstBodyParam(ps)
    case None => Err(NoBodyParameter)
    case Some(i) =>
      var arg := args[ps[i].index];
      if !ps[i].isSimple && json(arg).Some? then Ok(json(arg).value)
      // a simple value, or the writer threw (logged, then falls through)
      else Ok(StringOrEmpty(arg))
  }

  /** getObjectBody: the XML-mode body; a complex value is not converted. */
  function GetObjectBody(ps: seq<Param>, args: seq<Arg>): (r: Result<Body, Error>)
    requires ArgsFit(ps, args)
    ensures r.Err? <==> forall j :: 0 <= j < |ps| ==> !BodyCandidate(ps[j])
    ensures r.Err? ==> r.error == NoBodyParameter
    ensures r.Ok? ==> r.value.Text? || r.value.Raw?
  {
    match FirstBodyParam(ps)
    case None => Err(NoBodyParameter)
    case Some(i) =>
      var arg := args[ps[i].index];
      if !ps[i].isSimple then Ok(Raw(arg))
      else Ok(Text(StringOrEmpty(arg)))
  }

  // ---------------------------------------------------------------------
  // Form bodies
  // ---------------------------------------------------------------------

  /** The filter of getFormBody. */
  predicate FormCandidate(p: Param)
  {
    !p.isSimple || p.formAnn.Some? || p.hasBodyAnn
  }

  /** The field name: the @WxApiForm value when it is set, else the declared name. */
  function FormName(p: Param): (r: Option<string>)
    ensures r.Some? ==> r == p.formAnn || r == p.name
    ensures r.None? <==> p.name.None? && (p.formAnn.None? || p.formAnn.value == DEFAULT_NONE)
    ensures r == Some(DEFAULT_NONE) ==> p.name == r
    ensures p.formAnn.Some? && p.formAnn.value != DEFAULT_NONE ==> r == p.formAnn
    ensures p.formAnn.None? || p.formAnn.value == DEFAULT_NONE ==> r == p.name
  {
    if p.formAnn.None? || p.formAnn.value == DEFAULT_NONE then p.name else p.formAnn
  }

  /** Where the bytes of a resource come from. */
  function ResourceSource(r: Resource): Arg
  {
    match r
    case Given(a) => a
    case FileSystemResource(a) => a
    case InputStreamResource(s) =>
      match s
      case Direct(a) => a
      case OpenedFrom(a) => a
      case ReaderInputStream(a, _) => a
  }

  /** getFormResource, with its InputStreamSource branch as evidently intended
      (see GetFormResourceAsWritten): checks in source order, so a Resource,
      although also an InputStreamSource, is returned as it is. */
  function GetFormResource(arg: Arg): (r: Result<Resource, Error>)
    ensures r.Ok? ==> ResourceSource(r.value) == arg
    ensures r.Ok? <==> arg.Obj? && (IsInputStreamSource(arg.kind) || arg.kind.FileObject?
                                    || arg.kind.InputStreamObject? || arg.kind.ReaderObject?)
                                 && arg.kind != StreamSourceObject(false)
    ensures arg.Obj? && arg.kind == StreamSourceObject(true) ==> r == Ok(InputStreamResource(OpenedFrom(arg)))
  {
    if arg.Null? then Err(NullArgument)
    else if IsResource(arg.kind) then Ok(Given(arg))
    else if IsInputStreamSource(arg.kind) then
      if arg.kind.opens then Ok(InputStreamResource(OpenedFrom(arg))) else Err(StreamOpenFailed)
    else if arg.kind.FileObject? then Ok(FileSystemResource(arg))
    else if arg.kind.InputStreamObject? then Ok(InputStreamResource(Direct(arg)))
    else if arg.kind.ReaderObject? then Ok(InputStreamResource(ReaderInputStream(arg, UTF_8)))
    else Err(ClassCast)
  }

  /** getFormResource as written: the InputStreamSource branch casts the
      argument to InputStreamResource. InputStreamResource is itself a
      Resource, so every argument that reaches this branch is not one and
      the cast throws ClassCastException before getInputStream() is called. */
  function GetFormResourceAsWritten(arg: Arg): (r: Result<Resource, Error>)
    ensures arg.Obj? && arg.kind.StreamSourceObject? ==> r == Err(ClassCast)
  {
    if arg.Null? then Err(NullArgument)
    else if IsResource(arg.kind) then Ok(Given(arg))
    else if IsInputStreamSource(arg.kind) then Err(ClassCast)
    else if arg.kind.FileObject? then Ok(FileSystemResource(arg))
    else if arg.kind.InputStreamObject? then Ok(InputStreamResource(Direct(arg)))
    else if arg.kind.ReaderObject? then Ok(InputStreamResource(ReaderInputStream(arg, UTF_8)))
    else Err(ClassCast)
  }

  /** The one `add` that getFormBody makes for parameter p. */
  function FormEntry(p: Param, args: seq<Arg>): (r: Result<(string, FormValue), Error>)
    requires p.index < |args|
    ensures r.Ok? ==> Some(r.value.0) == FormName(p)
    ensures r.Ok? && !p.isMultipart ==> r.value.1 == AsIs(args[p.index])
    ensures r.Ok? && p.isMultipart ==> r.value.1.Attached? && ResourceSource(r.value.1.resource) == args[p.index]
    ensures FormName(p).None? ==> r == Err(MissingParameterName)
    ensures FormName(p).Some? && !p.isMultipart ==> r == Ok((FormName(p).value, AsIs(args[p.index])))
  {
    match FormName(p)
    case None => Err(MissingParameterName)
    case Some(name) =>
      if p.isMultipart then
        match GetFormResource(args[p.index])
        case Err(e) => Err(e)
        case Ok(res) => Ok((name, Attached(res)))
      else Ok((name, AsIs(args[p.index])))
  }

  /** The parameters getFormBody keeps, in declared order. */
  function FormParams(ps: seq<Param>): (r: seq<Param>)
    ensures forall p :: p in r ==> p in ps && FormCandidate(p)
    ensures forall p :: p in ps && FormCandidate(p) ==> p in r
  {
    if ps == [] then []
    else FormParams(ps[..|ps| - 1]) + (if FormCandidate(ps[|ps| - 1]) then [ps[|ps| - 1]] else [])
  }

  /** The sequence of `add` calls getFormBody makes, or the first failure. */
  function FormPairs(ps: seq<Param>, args: seq<Arg>): (r: Result<seq<(string, FormValue)>, Error>)
    requires ArgsFit(ps, args)
    ensures r.Err? ==> !r.error.ResponseStatus?
  {
    if ps == [] then Ok([])
    else
      var last := ps[|ps| - 1];
      match FormPairs(ps[..|ps| - 1], args)
      case Err(e) => Err(e)
      case Ok(pairs) =>
        if !FormCandidate(last) then Ok(pairs)
        else
          match FormEntry(last, args)
          case Err(e) => Err(e)
          case Ok(entry) => Ok(pairs + [entry])
  }

  /** Once a prefix of the parameters fails, the whole list fails the same way. */
  lemma {:induction false} FormPairsFailureSticks(ps: seq<Param>, args: seq<Arg>, k: nat)
    requires ArgsFit(ps, args) && k <= |ps|
    requires FormPairs(ps[..k], args).Err?
    ensures FormPairs(ps, args) == FormPairs(ps[..k], args)
  {
    if k < |ps| {
      assert ps[..|ps| - 1][..k] == ps[..k];
      FormPairsFailureSticks(ps[..|ps| - 1], args, k);
    } else {
      assert ps[..k] == ps;
    }
  }

  /** getFormBody: fills a LinkedMultiValueMap with one `add` per kept parameter. */
  method GetFormBody(ps: seq<Param>, args: seq<Arg>) returns (r: Result<MultiValueMap<FormValue>, Error>)
    requires ArgsFit(ps, args)
    ensures FormPairs(ps, args).Err? ==> r == Err(FormPairs(ps, args).error)
    ensures FormPairs(ps, args).Ok? ==> r == Ok(FromPairs(FormPairs(ps, args).value))
  {
    var params := new LinkedMultiValueMap<FormValue>();
    ghost var added: seq<(string, FormValue)> := [];
    var i := 0;
    while i < |ps|
      invariant 0 <= i <= |ps|
      invariant FormPairs(ps[..i], args) == Ok(added)
      invariant params.Snapshot() == FromPairs(added)
    {
      var p := ps[i];
      assert ps[..i + 1][..i] == ps[..i] && ps[..i + 1][i] == p;
      if FormCandidate(p) {
        var name := FormName(p);
        if name.None? {
          FormPairsFailureSticks(ps, args, i + 1);
          return Err(MissingParameterName);
        }
        var value: FormValue;
        if p.isMultipart {
          var res := GetFormResource(args[p.index]);
          if res.Err? {
            FormPairsFailureSticks(ps, args, i + 1);
            return Err(res.error);
          }
          value := Attached(res.value);
        } else {
          value := AsIs(args[p.index]);
        }
        params.Add(name.value, value);
        added := added + [(name.value, value)];
      }
      i := i + 1;
    }
    assert ps[..|ps|] == ps;
    r := Ok(params.Snapshot());
  }

  // ---------------------------------------------------------------------
  // Request assembly and execution
  // ---------------------------------------------------------------------

  /** buildJsonHeaders */
  function JsonHeaders(): (h: Headers)
    ensures h.contentType == APPLICATION_JSON
  {
    Headers(APPLICATION_JSON)
  }

  /** buildXmlHeaders */
  function XmlHeaders(): (h: Headers)
    ensures h.contentType == TEXT_XML
  {
    Headers(TEXT_XML)
  }

  /** The request buildHttpRequestEntity builds, from the URI that
      `fromArgs` resolved and the token the token manager hands out. */
  function BuildRequest(info: MethodInfo, args: seq<Arg>, fromArgs: Uri, token: string, json: JsonWriter)
    : (r: Result<RequestEntity, Error>)
    requires ArgsFit(info.params, args) && Valid(fromArgs.query)
    ensures r.Ok? ==> r.value.httpMethod == info.httpMethod && r.value.uri.path == fromArgs.path
    ensures r.Ok? ==> Get(r.value.uri.query, ACCESS_TOKEN_PARAM_NAME) == [token]
    ensures r.Err? ==> !info.requestMethod.OTHER? && !r.error.ResponseStatus?
  {
    var uri := Uri(fromArgs.path, Replaced(fromArgs.query, ACCESS_TOKEN_PARAM_NAME, token));
    match info.requestMethod
    case JSON =>
      (match GetStringBody(info.params, args, json)
       case Err(e) => Err(e)
       case Ok(s) => Ok(RequestEntity(Text(s), Some(JsonHeaders()), info.httpMethod, uri)))
    case XML =>
      (match GetObjectBody(info.params, args)
       case Err(e) => Err(e)
       case Ok(b) => Ok(RequestEntity(b, Some(XmlHeaders()), info.httpMethod, uri)))
    case FORM =>
      (match FormPairs(info.params, args)
       case Err(e) => Err(e)
       case Ok(pairs) => Ok(RequestEntity(FormFields(FromPairs(pairs)), None, info.httpMethod, uri)))
    case OTHER => Ok(RequestEntity(NoBody, None, info.httpMethod, uri))
  }

  /** buildHttpRequestEntity */
  method BuildHttpRequestEntity(info: MethodInfo, args: seq<Arg>, fromArgs: Uri, token: string, json: JsonWriter)
    returns (r: Result<RequestEntity, Error>)
    requires ArgsFit(info.params, args) && Valid(fromArgs.query)
    ensures r == BuildRequest(info, args, fromArgs, token, json)
  {
    var builder := new UriComponentsBuilder(fromArgs);
    builder.ReplaceQueryParam(ACCESS_TOKEN_PARAM_NAME, token);
    var headers: Option<Headers> := None;
    var body: Body := NoBody;
    if info.requestMethod.JSON? {
      headers := Some(JsonHeaders());
      var s := GetStringBody(info.params, args, json);
      if s.Err? {
        return Err(s.error);
      }
      body := Text(s.value);
    } else if info.requestMethod.XML? {
      headers := Some(XmlHeaders());
      var b := GetObjectBody(info.params, args);
      if b.Err? {
        return Err(b.error);
      }
      body := b.value;
    } else if info.requestMethod.FORM? {
      var f := GetFormBody(info.params, args);
      if f.Err? {
        return Err(f.error);
      }
      body := FormFields(f.value);
    }
    r := Ok(RequestEntity(body, headers, info.httpMethod, builder.Build()));
  }

  /** HttpStatus.is2xxSuccessful: the status lies in the SUCCESSFUL series. */
  function Is2xx(status: nat): (r: bool)
    ensures r <==> 200 <= status < 300
  {
    status / 100 == 2
  }

  /** execute: build, exchange, then refuse a non-2xx status or hand the
      response to the extractor. */
  method Execute<T>(info: MethodInfo, args: seq<Arg>, fromArgs: Uri, token: string, json: JsonWriter,
                    exchange: RequestEntity -> Response, extract: Response -> T)
    returns (r: Result<T, Error>)
    requires ArgsFit(info.params, args) && Valid(fromArgs.query)
    ensures BuildRequest(info, args, fromArgs, token, json).Err? ==>
              r == Err(BuildRequest(info, args, fromArgs, token, json).error)
    ensures BuildRequest(info, args, fromArgs, token, json).Ok? ==>
              var response := exchange(BuildRequest(info, args, fromArgs, token, json).value);
              && (r.Err? <==> !Is2xx(response.status))
              && (r.Err? ==> r.error == ResponseStatus(response.status, response.body))
              && (r.Ok? ==> r.value == extract(response))
  {
    var request := BuildHttpRequestEntity(info, args, fromArgs, token, json);
    if request.Err? {
      return Err(request.error);
    }
    var response := exchange(request.value);
    if !Is2xx(response.status) {
      return Err(ResponseStatus(response.status, response.body));
    }
    r := Ok(extract(response));
  }
}
