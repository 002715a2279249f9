# WxApiExecutor request building, modelled in Dafny

FastBootWeixin calls the WeChat API through `WxApiExecutor`. The executor
takes a resolved API method description and the call's arguments and builds
a `RequestEntity`. It first replaces the `access_token` query parameter
with the token manager's value. The request method then decides the rest:

- JSON: an `application/json` header and a string body.
- XML: a `text/xml` header and an object body.
- FORM: no headers and a multi-valued form field map.

The executor sends the entity through the invoker. It refuses any status
outside 2xx with `WxApiResponseException` and hands every other response to
the response extractor.

The model has four modules:

- `Wrappers` (`wrappers.dfy`): `Option` and `Result`. They stand for Java's
  null and for thrown exceptions.
- `MultiValue` (`multi_value.dfy`): Spring's `LinkedMultiValueMap` as the
  executor uses it. Its value is the keys in first-insertion order plus a
  list of values per key. The `add` and `remove` operations are functions,
  and a `LinkedMultiValueMap` class fills the map in place.
- `UriComponents` (`uri_components.dfy`): the resolved URI (a path and a
  query multimap) and `replaceQueryParam`. The builder is a class that
  the executor mutates.
- `WxApiExecutor` (`executor.dfy`): the data model and all operations.
  Reflection becomes a `Param` record per declared parameter. The runtime
  class of an argument becomes `Kind`. `getFormBody` and
  `buildHttpRequestEntity` are methods. `getFormBody` loops over the
  parameters and adds to a fresh map. `buildHttpRequestEntity` mutates the
  URI builder and assigns the header and body variables. Both are proved
  equal to specification functions (`FormPairs`/`FromPairs` and
  `BuildRequest`). Body selection, field naming and file classification
  are functions.
- `WxApiExecutorProperties` (`properties.dfy`): lemmas about these
  operations. They cover first-match body selection, failure when nothing
  matches, form order and multiplicity, classification of file arguments,
  and the token always winning.

Collaborators become inputs:

- The Jackson writer becomes `json: Arg -> Option<string>`, where `None`
  means it threw.
- The token manager's value becomes the `token` string.
- The result of `WxApiMethodInfo.fromArgs` becomes the `fromArgs` URI.
- The invoker's exchange and the response extractor become function
  parameters of `Execute`.

When JSON serialisation throws, the body is not omitted: the exception is
logged and execution falls through to the `toString()`/`""` branch, so a
body is always sent (`ComplexJsonBody`).

## Model

| member | source | states |
|---|---|---|
| `WxApiExecutor.FirstBodyParam` | src/main/java/com/example/myproject/controller/invoker/executor/WxApiExecutor.java:123-125 | the chosen position is a simple-typed or `@WxApiBody` parameter, no earlier parameter is one, and there is no choice exactly when no parameter is one |
| `WxApiExecutor.GetStringBody` | src/main/java/com/example/myproject/controller/invoker/executor/WxApiExecutor.java:122-143 | the JSON body fails, with the "no parameter to handle" error, exactly when no parameter is simple-typed or `@WxApiBody` |
| `WxApiExecutor.GetObjectBody` | src/main/java/com/example/myproject/controller/invoker/executor/WxApiExecutor.java:103-120 | the XML body fails exactly when no parameter qualifies; otherwise it is a string or the unconverted argument |
| `WxApiExecutor.FormName` | src/main/java/com/example/myproject/controller/invoker/executor/WxApiExecutor.java:156-163 | a `@WxApiForm` value other than `DEFAULT_NONE` is the field name, taking priority over the declared name; with the annotation absent or `DEFAULT_NONE` the declared name is used; the name is missing exactly when neither gives one |
| `WxApiExecutor.GetFormResource` | src/main/java/com/example/myproject/controller/invoker/executor/WxApiExecutor.java:176-195 | a file argument becomes a resource exactly when it is a Resource, an InputStreamSource whose stream opens, a File, an InputStream or a Reader; every resource made reads from the argument itself; an InputStreamSource whose stream opens becomes an InputStreamResource over that opened stream |
| `WxApiExecutor.GetFormResourceAsWritten` | src/main/java/com/example/myproject/controller/invoker/executor/WxApiExecutor.java:179-185 | as written, every InputStreamSource that is not a Resource fails with ClassCastException |
| `WxApiExecutor.FormEntry` | src/main/java/com/example/myproject/controller/invoker/executor/WxApiExecutor.java:156-171 | a kept parameter without a resolvable name fails with the missing-name error; a named non-multipart parameter always succeeds with its argument inserted as is; a successful entry has the resolved field name, and a multipart one's value is a resource reading from the argument |
| `WxApiExecutor.FormParams` | src/main/java/com/example/myproject/controller/invoker/executor/WxApiExecutor.java:153-154 | a declared parameter is kept exactly when it is non-simple, `@WxApiForm` or `@WxApiBody` (both directions) |
| `WxApiExecutor.FormPairs` | src/main/java/com/example/myproject/controller/invoker/executor/WxApiExecutor.java:155-172 | the form body fails only with a kept parameter's entry error (missing name or resource conversion), never with a response status |
| `WxApiExecutor.FormPairsFailureSticks` | src/main/java/com/example/myproject/controller/invoker/executor/WxApiExecutor.java:155-172 | once a parameter's entry fails, the whole form body fails with that error |
| `WxApiExecutor.GetFormBody` | src/main/java/com/example/myproject/controller/invoker/executor/WxApiExecutor.java:151-174 | the loop fails with the error of the first failing kept parameter; otherwise the map holds exactly the result of adding one entry per kept parameter in declared order |
| `WxApiExecutor.BuildHttpRequestEntity` | src/main/java/com/example/myproject/controller/invoker/executor/WxApiExecutor.java:83-101 | the in-place assembly (builder mutation, header and body variables) yields exactly the request `BuildRequest` specifies, or its error |
| `WxApiExecutor.JsonHeaders` | src/main/java/com/example/myproject/controller/invoker/executor/WxApiExecutor.java:202-206 | the JSON headers carry content type `application/json` |
| `WxApiExecutor.XmlHeaders` | src/main/java/com/example/myproject/controller/invoker/executor/WxApiExecutor.java:213-217 | the XML headers carry content type `text/xml` |
| `WxApiExecutor.BuildRequest` | src/main/java/com/example/myproject/controller/invoker/executor/WxApiExecutor.java:83-101 | a built request keeps the method's HTTP method and the resolved path, and its `access_token` parameter holds exactly the token; building fails only in JSON, XML or FORM mode, and never with a response status |
| `WxApiExecutor.Is2xx` | src/main/java/com/example/myproject/controller/invoker/executor/WxApiExecutor.java:77 | a status is successful exactly when it lies in 200..299 |
| `WxApiExecutor.Execute` | src/main/java/com/example/myproject/controller/invoker/executor/WxApiExecutor.java:72-81 | a build failure is returned as is; otherwise the call fails with the response's status and body exactly when the status is not 2xx, and else returns the extractor's result |
| `MultiValue.Empty` | src/main/java/com/example/myproject/controller/invoker/executor/WxApiExecutor.java:152 | a new map satisfies the map invariant |
| `MultiValue.WithAdded` | src/main/java/com/example/myproject/controller/invoker/executor/WxApiExecutor.java:171 | `add` appends the value to the end of that key's list, leaves every other key alone, adds a new key at the end, and keeps the invariant |
| `MultiValue.Removed` | src/main/java/com/example/myproject/controller/invoker/executor/WxApiExecutor.java:86 | removing a key drops all its values and leaves every other key alone |
| `MultiValue.FromPairs` | src/main/java/com/example/myproject/controller/invoker/executor/WxApiExecutor.java:152-173 | a map filled by a sequence of `add` calls satisfies the invariant |
| `MultiValue.FromPairsGroupsValues` | src/main/java/com/example/myproject/controller/invoker/executor/WxApiExecutor.java:152-173 | after a sequence of `add` calls every key holds all its values in insertion order, and keys come in order of first occurrence |
| `MultiValue.LinkedMultiValueMap.Add` | src/main/java/com/example/myproject/controller/invoker/executor/WxApiExecutor.java:171 | the in-place `add` leaves the map equal to `WithAdded` of the old map |
| `UriComponents.Replaced` | src/main/java/com/example/myproject/controller/invoker/executor/WxApiExecutor.java:86 | after replacement the parameter holds exactly the new value, and every other parameter is unchanged |
| `UriComponents.UriComponentsBuilder.ReplaceQueryParam` | src/main/java/com/example/myproject/controller/invoker/executor/WxApiExecutor.java:86 | the builder's query becomes `Replaced` of the old query, and its path is unchanged |
| `WxApiExecutorProperties.SimpleXmlBodyIsToString` | src/main/java/com/example/myproject/controller/invoker/executor/WxApiExecutor.java:115-119 | in XML mode a simple-typed body parameter gives `toString()`, or `""` for null |
| `WxApiExecutorProperties.SimpleJsonBodyIsToString` | src/main/java/com/example/myproject/controller/invoker/executor/WxApiExecutor.java:138-142 | in JSON mode a simple-typed body parameter gives `toString()`, or `""` for null |
| `WxApiExecutorProperties.ComplexJsonBody` | src/main/java/com/example/myproject/controller/invoker/executor/WxApiExecutor.java:130-142 | a complex JSON body is the serialisation; if the writer throws, the body is `toString()`/`""`, never omitted |
| `WxApiExecutorProperties.XmlComplexBodyPassesThrough` | src/main/java/com/example/myproject/controller/invoker/executor/WxApiExecutor.java:111-114 | a complex XML body is the argument itself, unconverted |
| `WxApiExecutorProperties.OnlyFirstCandidateConsulted` | src/main/java/com/example/myproject/controller/invoker/executor/WxApiExecutor.java:123-142 | later parameters, and the arguments of every parameter except the first candidate, do not affect the JSON or XML body |
| `WxApiExecutorProperties.ScalarBodyExamples` | src/main/java/com/example/myproject/controller/invoker/executor/WxApiExecutor.java:138-142 | scalar `42` gives body `"42"`, and null gives `""` |
| `WxApiExecutorProperties.FormParamsSingle` | src/main/java/com/example/myproject/controller/invoker/executor/WxApiExecutor.java:153-154 | a single parameter is kept exactly once when it is non-simple, `@WxApiForm` or `@WxApiBody`, and not at all otherwise |
| `WxApiExecutorProperties.FormParamsDistributes` | src/main/java/com/example/myproject/controller/invoker/executor/WxApiExecutor.java:153-154 | keeping parameters is decided one parameter at a time in declared order: the kept parameters of a concatenation are those of its parts, concatenated |
| `WxApiExecutorProperties.FormEntryConvertsMultipart` | src/main/java/com/example/myproject/controller/invoker/executor/WxApiExecutor.java:165-171 | a named multipart parameter's entry holds the resource `GetFormResource` makes from its argument, and fails exactly with that conversion's error |
| `WxApiExecutorProperties.FormPairsFollowKeptParams` | src/main/java/com/example/myproject/controller/invoker/executor/WxApiExecutor.java:153-172 | a successful form body has exactly one `add` per kept parameter, in declared order, each that parameter's entry |
| `WxApiExecutorProperties.FormPairsFailure` | src/main/java/com/example/myproject/controller/invoker/executor/WxApiExecutor.java:155-172 | the form body fails exactly when some kept parameter's entry fails, and then with the error of the first one that fails |
| `WxApiExecutorProperties.FormBodyKeepsEveryValue` | src/main/java/com/example/myproject/controller/invoker/executor/WxApiExecutor.java:152-173 | the form map keeps every value added under a name, in insertion order; names come in order of first occurrence |
| `WxApiExecutorProperties.RepeatedFieldNameKeepsBothValues` | src/main/java/com/example/myproject/controller/invoker/executor/WxApiExecutor.java:153-171 | two parameters named `media` keep both values in declared order, and a simple unannotated parameter is skipped |
| `WxApiExecutorProperties.ResourceCheckedBeforeStreamSource` | src/main/java/com/example/myproject/controller/invoker/executor/WxApiExecutor.java:177-179 | a Resource is also an InputStreamSource, yet it is returned unchanged because its check comes first |
| `WxApiExecutorProperties.FormResourceClassification` | src/main/java/com/example/myproject/controller/invoker/executor/WxApiExecutor.java:176-195 | null fails, a File becomes a FileSystemResource, an InputStream an InputStreamResource, a Reader a UTF-8 ReaderInputStream resource, and any other object fails its Reader cast |
| `WxApiExecutorProperties.AsWrittenRejectsStreamSource` | src/main/java/com/example/myproject/controller/invoker/executor/WxApiExecutor.java:179-185 | every InputStreamSource argument that is not a Resource is rejected with ClassCastException as written, while the corrected dispatch wraps its opened stream, or fails with the open error when opening throws |
| `WxApiExecutorProperties.AsWrittenAgreesElsewhere` | src/main/java/com/example/myproject/controller/invoker/executor/WxApiExecutor.java:176-195 | outside that branch, the as-written and corrected dispatches agree |
| `WxApiExecutorProperties.TokenAlwaysWins` | src/main/java/com/example/myproject/controller/invoker/executor/WxApiExecutor.java:84-86 | `access_token` holds exactly the token, whatever the resolved URI held; path and other query parameters are unchanged |
| `WxApiExecutorProperties.HeadersAndBodyFollowRequestMethod` | src/main/java/com/example/myproject/controller/invoker/executor/WxApiExecutor.java:87-100 | JSON gives `application/json` and the JSON string body; XML gives `text/xml` and the object body; FORM gives no headers and the map filled by the form body's `add` calls; other methods give neither headers nor body |
| `WxApiExecutorProperties.BuildFailsOnlyOnBody` | src/main/java/com/example/myproject/controller/invoker/executor/WxApiExecutor.java:89-99 | building fails exactly when the body does: JSON/XML with no candidate and the no-parameter error, or FORM with a failing kept parameter and that form body's error (such as the missing-name error); other methods never fail |

## Left out

- The transport call `wxApiInvoker.exchange` is I/O. It is the function parameter `exchange` of `Execute`.
- Response decoding by `WxApiResponseExtractor` is I/O plus message converters. It is the function parameter `extract` of `Execute`.
- Jackson's `writeValueAsString` is a foreign library. It is the function parameter `json`.
- URL-template resolution in `WxApiMethodInfo.fromArgs` is not part of this model. Its result is the input `fromArgs` (a path and a valid query multimap).
- The token manager is external. Its current token is the input `token`; refresh, caching and thread safety are not modelled.
- Reflection and annotations are replaced by the precomputed fields of `Param`. This covers `BeanUtils.isSimpleValueType`, `hasParameterAnnotation`, `getParameterName` and `WxRequestUtils.isMutlipart`. `ArgsFit` requires every parameter index to fall inside the argument array, as a reflective invocation guarantees.
- Stream internals are I/O concerns and are left out. This covers lazy UTF-8 transcoding in `ReaderInputStream`, the behaviour of `FileSystemResource`/`InputStreamResource`, closing of streams and memory bounds. Resources are values that name the argument they read from.
- The `IOException` of `getInputStream()` is a flag on the argument, `StreamSourceObject(opens)`.
- Logging is left out: the two `logger.error` calls have no effect on the result.
- The class comment mentions retrying when the token has expired. This file does not implement it, so the model does not either.
- `Is2xx` takes any natural number. Spring's `HttpStatus` lookup of unknown codes is not modelled.
- `UriComponents.Replaced` models `replaceQueryParam` with exactly one value, the only way the executor calls it.
- The URI is a path plus a query map. Encoding into a `java.net.URI` is not modelled.
- `WxApiExecutor.GetObjectBody` returns `Raw(Null)` for a null complex XML argument. This stands for the Java null body.

- `WxApiExecutor.FormEntry` and the form, request and execution models built on it (`FormPairs`, `GetFormBody`, `BuildRequest`, `BuildHttpRequestEntity`, `Execute`) use the corrected resource dispatch `GetFormResource`. For a multipart argument that is an InputStreamSource but not a Resource they wrap the opened stream, where the code as written throws ClassCastException at line 181; `GetFormResourceAsWritten` models that behaviour (see Findings).

## Findings

| source | as written | input that shows it | evidently intended | confidence | as-written member | corrected member |
|---|---|---|---|---|---|---|
| src/main/java/com/example/myproject/controller/invoker/executor/WxApiExecutor.java:179-185 | the InputStreamSource branch casts the argument to `InputStreamResource`; that class is itself a `Resource`, so any argument reaching the branch is not one and the cast throws ClassCastException (not caught by the `IOException` handler) | a multipart argument that is an InputStreamSource but not a Resource, such as a Spring `MultipartFile` | cast to `InputStreamSource` and wrap its `getInputStream()` in an `InputStreamResource`, failing with `WxAppException` only when opening throws | high (not executed) | `WxApiExecutor.GetFormResourceAsWritten`, `WxApiExecutorProperties.AsWrittenRejectsStreamSource` | `WxApiExecutor.GetFormResource` |
