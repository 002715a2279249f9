/** The part of Spring's UriComponentsBuilder that the executor touches: the
    builder that `WxApiMethodInfo.fromArgs` hands back already holds the
    resolved path and query parameters, and the executor replaces one query
    parameter before building the URI. */
module UriComponents {
  import opened MultiValue

  /** A built URI: the resolved path and the query parameters. */
  datatype Uri = Uri(path: string, query: MultiValueMap<string>)

  /** `replaceQueryParam(name, value)`: every value name had is dropped and
      name then holds exactly value; every other parameter is untouched. */
  function Replaced(q: MultiValueMap<string>, name: string, value: string): (r: MultiValueMap<string>)
    requires Valid(q)
    ensures Valid(r)
    ensures Get(r, name) == [value]
    ensures forall n :: n != name ==> Get(r, n) == Get(q, n)
  {
    WithAdded(Removed(q, name), name, value)
  }

  class UriComponentsBuilder {
    var path: string
    var query: MultiValueMap<string>

    constructor (from: Uri)
      ensures path == from.path && query == from.query
    {
      path := from.path;
      query := from.query;
    }

    method ReplaceQueryParam(name: string, value: string)
      requires Valid(query)
      modifies this
      ensures path == old(path)
      ensures query == Replaced(old(query), name, value)
    {
      query := Replaced(query, name, value);
    }

    function Build(): Uri
      reads this
    {
      Uri(path, query)
    }
  }
}
