/** What the executor promises, stated over the model in WxApiExecutor:
    first-match body selection, failure when nothing matches, order and
    multiplicity of form fields, the classification of file arguments, and
    that the injected token always wins. */
module WxApiExecutorProperties {
  import opened Wrappers
  import opened MultiValue
  import opened UriComponents
  import opened WxApiExecutor

  /** ps[i] is the first parameter, in declared order, that may be the body. */
  predicate IsFirstBodyCandidate(ps: seq<Param>, i: nat)
  {
    i < |ps| && BodyCandidate(ps[i]) && forall j :: 0 <= j < i ==> !BodyCandidate(ps[j])
  }

  // ---------------------------------------------------------------------
  // JSON and XML bodies
  // ---------------------------------------------------------------------

  /** In JSON mode a simple-typed body parameter gives `toString()`, or ""
      for null. */
  lemma SimpleJsonBodyIsToString(ps: seq<Param>, args: seq<Arg>, json: JsonWriter, i: nat)
    requires ArgsFit(ps, args) && IsFirstBodyCandidate(ps, i) && ps[i].isSimple
    ensures GetStringBody(ps, args, json) == Ok(StringOrEmpty(args[ps[i].index]))
    ensures args[ps[i].index].Null? ==> GetStringBody(ps, args, json) == Ok("")
  {
  }

  /** In XML mode a simple-typed body parameter gives the text `toString()`,
      or "" for null. */
  lemma SimpleXmlBodyIsToString(ps: seq<Param>, args: seq<Arg>, i: nat)
    requires ArgsFit(ps, args) && IsFirstBodyCandidate(ps, i) && ps[i].isSimple
    ensures GetObjectBody(ps, args) == Ok(Text(StringOrEmpty(args[ps[i].index])))
    ensures args[ps[i].index].Null? ==> GetObjectBody(ps, args) == Ok(Text(""))
  {
  }

  /** In JSON mode a complex body parameter is serialised; when the writer
      throws, the body falls back to `toString()` or "" and is never omitted. */
  lemma ComplexJsonBody(ps: seq<Param>, args: seq<Arg>, json: JsonWriter, i: nat)
    requires ArgsFit(ps, args) && IsFirstBodyCandidate(ps, i) && !ps[i].isSimple
    ensures json(args[ps[i].index]).Some? ==>
              GetStringBody(ps, args, json) == Ok(json(args[ps[i].index]).value)
    ensures json(args[ps[i].index]).None? ==>
              GetStringBody(ps, args, json) == Ok(StringOrEmpty(args[ps[i].index]))
  {
  }

  /** In XML mode a complex body parameter is the body itself, unconverted. */
  lemma XmlComplexBodyPassesThrough(ps: seq<Param>, args: seq<Arg>, i: nat)
    requires ArgsFit(ps, args) && IsFirstBodyCandidate(ps, i) && !ps[i].isSimple
    ensures GetObjectBody(ps, args) == Ok(Raw(args[ps[i].index]))
  {
  }

  /** Only the first body candidate is consulted: parameters declared after
      it, and the arguments of every other parameter, do not change the body. */
  lemma OnlyFirstCandidateConsulted(
    ps: seq<Param>, qs: seq<Param>, args: seq<Arg>, args': seq<Arg>, json: JsonWriter, i: nat)
    requires ArgsFit(ps, args) && ArgsFit(qs, args')
    requires IsFirstBodyCandidate(ps, i) && i < |qs| && ps[..i + 1] == qs[..i + 1]
    requires args[ps[i].index] == args'[ps[i].index]
    ensures GetStringBody(ps, args, json) == GetStringBody(qs, args', json)
    ensures GetObjectBody(ps, args) == GetObjectBody(qs, args')
  {
  }

  /** Scalar 42 gives the body "42" and a null scalar gives "" (JSON mode). */
  lemma ScalarBodyExamples(json: JsonWriter)
    ensures var p := Param(0, true, false, None, Some("count"), false);
            GetStringBody([p], [Obj(SimpleValue, 1, "42")], json) == Ok("42")
            && GetStringBody([p], [Null], json) == Ok("")
  {
  }

  // ---------------------------------------------------------------------
  // Form bodies
  // ---------------------------------------------------------------------

  /** A named multipart parameter's entry is the resource GetFormResource
      makes from its argument, and fails exactly as that conversion fails. */
  lemma FormEntryConvertsMultipart(p: Param, args: seq<Arg>)
    requires p.index < |args|
    ensures FormName(p).Some? && p.isMultipart && GetFormResource(args[p.index]).Err? ==>
              FormEntry(p, args) == Err(GetFormResource(args[p.index]).error)
    ensures FormName(p).Some? && p.isMultipart && GetFormResource(args[p.index]).Ok? ==>
              FormEntry(p, args) == Ok((FormName(p).value, Attached(GetFormResource(args[p.index]).value)))
  {
  }

  /** A single parameter is kept once when it qualifies, and not at all
      otherwise; with FormParamsDistributes this fixes FormParams on every
      parameter list. */
  lemma FormParamsSingle(p: Param)
    ensures FormParams([p]) == if FormCandidate(p) then [p] else []
  {
    assert [p][..0] == [];
  }

  /** Which parameters the form body keeps is decided parameter by
      parameter, in declared order: the kept parameters of a concatenation
      are those of its parts, concatenated. */
  lemma {:induction false} FormParamsDistributes(a: seq<Param>, b: seq<Param>)
    ensures FormParams(a + b) == FormParams(a) + FormParams(b)
  {
    if b == [] {
      assert a + b == a;
    } else {
      var b' := b[..|b| - 1];
      var last := b[|b| - 1];
      assert (a + b)[..|a + b| - 1] == a + b';
      assert (a + b)[|a + b| - 1] == last;
      FormParamsDistributes(a, b');
      var tail := if FormCandidate(last) then [last] else [];
      calc {
        FormParams(a + b);
        FormParams(a + b') + tail;
        FormParams(a) + FormParams(b') + tail;
        FormParams(a) + (FormParams(b') + tail);
        FormParams(a) + FormParams(b);
      }
    }
  }

  /** The `add` calls of a successful form body are exactly one per kept
      parameter, in declared order. */
  lemma {:induction false} FormPairsFollowKeptParams(ps: seq<Param>, args: seq<Arg>)
    requires ArgsFit(ps, args) && FormPairs(ps, args).Ok?
    ensures var pairs := FormPairs(ps, args).value;
            && |pairs| == |FormParams(ps)|
            && forall k :: 0 <= k < |pairs| ==> FormEntry(FormParams(ps)[k], args) == Ok(pairs[k])
  {
    if ps != [] {
      var init := ps[..|ps| - 1];
      assert forall p :: p in init ==> p in ps;
      FormPairsFollowKeptParams(init, args);
    }
  }

  /** A form body fails exactly when some kept parameter fails, and then with
      the error of the first one that does. */
  lemma {:induction false} FormPairsFailure(ps: seq<Param>, args: seq<Arg>)
    requires ArgsFit(ps, args)
    ensures var fp := FormParams(ps);
            FormPairs(ps, args).Err? <==> exists k :: 0 <= k < |fp| && FormEntry(fp[k], args).Err?
    ensures var fp := FormParams(ps);
            FormPairs(ps, args).Err? ==>
              exists k :: 0 <= k < |fp| && FormEntry(fp[k], args) == Err(FormPairs(ps, args).error)
                          && forall j :: 0 <= j < k ==> FormEntry(fp[j], args).Ok?
  {
    if ps != [] {
      var init := ps[..|ps| - 1];
      var last := ps[|ps| - 1];
      assert forall p :: p in init ==> p in ps;
      FormPairsFailure(init, args);
      var fi := FormParams(init);
      var fp := FormParams(ps);
      assert forall k :: 0 <= k < |fi| ==> fp[k] == fi[k];
      if FormPairs(init, args).Ok? {
        FormPairsFollowKeptParams(init, args);
        assert forall k :: 0 <= k < |fi| ==> FormEntry(fp[k], args).Ok?;
        if FormCandidate(last) && FormEntry(last, args).Err? {
          assert fp[|fi|] == last;
        }
      } else {
        var k :| 0 <= k < |fi| && FormEntry(fi[k], args) == Err(FormPairs(init, args).error)
                 && forall j :: 0 <= j < k ==> FormEntry(fi[j], args).Ok?;
        assert FormEntry(fp[k], args) == Err(FormPairs(ps, args).error);
      }
    }
  }

  /** Every value added under a field name is kept, in insertion order, and
      the names come in the order of their first kept parameter. */
  lemma FormBodyKeepsEveryValue(ps: seq<Param>, args: seq<Arg>, name: string)
    requires ArgsFit(ps, args) && FormPairs(ps, args).Ok?
    ensures var pairs := FormPairs(ps, args).value;
            && Get(FromPairs(pairs), name) == ValuesNamed(pairs, name)
            && FromPairs(pairs).keys == FirstOccurrences(pairs)
  {
    FromPairsGroupsValues(FormPairs(ps, args).value, name);
  }

  /** Two parameters that resolve to the same field name keep both values,
      in declared order, and a simple unannotated parameter is left out. */
  lemma RepeatedFieldNameKeepsBothValues(a: Arg, b: Arg, c: Arg)
    ensures var ps := [Param(0, false, false, Some("media"), None, false),
                       Param(1, true, false, None, Some("skipped"), false),
                       Param(2, true, false, Some("media"), None, false)];
            var pairs := FormPairs(ps, [a, b, c]);
            pairs.Ok? && Get(FromPairs(pairs.value), "media") == [AsIs(a), AsIs(c)]
            && FromPairs(pairs.value).keys == ["media"]
  {
    var p0 := Param(0, false, false, Some("media"), None, false);
    var p1 := Param(1, true, false, None, Some("skipped"), false);
    var p2 := Param(2, true, false, Some("media"), None, false);
    var args := [a, b, c];
    var e0 := ("media", AsIs(a));
    var e2 := ("media", AsIs(c));
    assert FormEntry(p0, args) == Ok(e0);
    assert FormEntry(p2, args) == Ok(e2);
    assert [p0][..0] == [] && [p0, p1][..1] == [p0] && [p0, p1, p2][..2] == [p0, p1];
    assert FormPairs([p0], args) == Ok([] + [e0]);
    assert [] + [e0] == [e0];
    assert FormPairs([p0, p1], args) == Ok([e0]);
    assert FormPairs([p0, p1, p2], args) == Ok([e0] + [e2]);
    assert [e0] + [e2] == [e0, e2] && [e0, e2][..1] == [e0] && [e0][..0] == [];
    assert FromPairs([e0]) == WithAdded(Empty(), "media", AsIs(a));
    assert FromPairs([e0, e2]) == WithAdded(FromPairs([e0]), "media", AsIs(c));
  }

  // ---------------------------------------------------------------------
  // File-like arguments
  // ---------------------------------------------------------------------

  /** A Resource is also an InputStreamSource; because it is checked first,
      it is handed on unchanged rather than re-opened as a stream. */
  lemma ResourceCheckedBeforeStreamSource(arg: Arg)
    requires arg.Obj? && IsResource(arg.kind)
    ensures IsInputStreamSource(arg.kind)
    ensures GetFormResource(arg) == Ok(Given(arg))
  {
  }

  /** How each file-like argument is wrapped, and which arguments fail. */
  lemma FormResourceClassification(arg: Arg)
    ensures arg.Null? ==> GetFormResource(arg) == Err(NullArgument)
    ensures arg.Obj? && arg.kind.FileObject? ==> GetFormResource(arg) == Ok(FileSystemResource(arg))
    ensures arg.Obj? && arg.kind.InputStreamObject? ==>
              GetFormResource(arg) == Ok(InputStreamResource(Direct(arg)))
    ensures arg.Obj? && arg.kind.ReaderObject? ==>
              GetFormResource(arg) == Ok(InputStreamResource(ReaderInputStream(arg, UTF_8)))
    ensures arg.Obj? && (arg.kind.SimpleValue? || arg.kind.Bean?) ==> GetFormResource(arg) == Err(ClassCast)
  {
  }

  /** The InputStreamSource branch as written rejects every stream source,
      including one whose stream opens, where the intended behaviour wraps
      the opened stream (or reports the failure to open it). */
  lemma AsWrittenRejectsStreamSource(arg: Arg)
    requires arg.Obj? && arg.kind.StreamSourceObject?
    ensures GetFormResourceAsWritten(arg) == Err(ClassCast)
    ensures arg.kind.opens ==> GetFormResource(arg) == Ok(InputStreamResource(OpenedFrom(arg)))
    ensures !arg.kind.opens ==> GetFormResource(arg) == Err(StreamOpenFailed)
  {
  }

  /** Outside that branch the corrected and the as-written dispatch agree. */
  lemma AsWrittenAgreesElsewhere(arg: Arg)
    requires !(arg.Obj? && arg.kind.StreamSourceObject?)
    ensures GetFormResourceAsWritten(arg) == GetFormResource(arg)
  {
  }

  // ---------------------------------------------------------------------
  // Request assembly
  // ---------------------------------------------------------------------

  /** The access_token query parameter holds exactly the token manager's
      value, whatever the resolved URI held; nothing else in the URI changes. */
  lemma TokenAlwaysWins(info: MethodInfo, args: seq<Arg>, fromArgs: Uri, token: string, json: JsonWriter)
    requires ArgsFit(info.params, args) && Valid(fromArgs.query)
    requires BuildRequest(info, args, fromArgs, token, json).Ok?
    ensures var uri := BuildRequest(info, args, fromArgs, token, json).value.uri;
            && Get(uri.query, ACCESS_TOKEN_PARAM_NAME) == [token]
            && uri.path == fromArgs.path
            && forall n :: n != ACCESS_TOKEN_PARAM_NAME ==> Get(uri.query, n) == Get(fromArgs.query, n)
  {
  }

  /** JSON requests carry application/json, XML requests text/xml, and all
      others no headers; the body is the one the request method's body
      builder produces: the JSON text, the XML object body, or the form
      fields collected from the kept parameters. */
  lemma HeadersAndBodyFollowRequestMethod(info: MethodInfo, args: seq<Arg>, fromArgs: Uri, token: string,
                                          json: JsonWriter)
    requires ArgsFit(info.params, args) && Valid(fromArgs.query)
    requires BuildRequest(info, args, fromArgs, token, json).Ok?
    ensures var req := BuildRequest(info, args, fromArgs, token, json).value;
            && req.httpMethod == info.httpMethod
            && (info.requestMethod.JSON? ==>
                  req.headers == Some(Headers(APPLICATION_JSON))
                  && req.body == Text(GetStringBody(info.params, args, json).value))
            && (info.requestMethod.XML? ==>
                  req.headers == Some(Headers(TEXT_XML))
                  && req.body == GetObjectBody(info.params, args).value)
            && (info.requestMethod.FORM? ==>
                  req.headers.None?
                  && req.body == FormFields(FromPairs(FormPairs(info.params, args).value))
                  && Valid(req.body.fields))
            && (info.requestMethod.OTHER? ==> req.headers.None? && req.body.NoBody?)
  {
  }

  /** Building fails exactly when the body cannot be built: no body candidate
      in JSON or XML mode, a failing kept parameter in FORM mode, whose
      error the build reports. */
  lemma BuildFailsOnlyOnBody(info: MethodInfo, args: seq<Arg>, fromArgs: Uri, token: string, json: JsonWriter)
    requires ArgsFit(info.params, args) && Valid(fromArgs.query)
    ensures var r := BuildRequest(info, args, fromArgs, token, json);
            && ((info.requestMethod.JSON? || info.requestMethod.XML?) ==>
                  (r.Err? <==> forall j :: 0 <= j < |info.params| ==> !BodyCandidate(info.params[j]))
                  && (r.Err? ==> r.error == NoBodyParameter))
            && (info.requestMethod.FORM? ==> (r.Err? <==> FormPairs(info.params, args).Err?))
            && (info.requestMethod.FORM? && r.Err? ==> r.error == FormPairs(info.params, args).error)
            && (info.requestMethod.OTHER? ==> r.Ok?)
  {
  }
}
