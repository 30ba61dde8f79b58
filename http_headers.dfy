/** The header map of an HTTP response as the requests library hands it
    over: a case-insensitive dictionary. The map is keyed by the
    lower-cased header name, and every lookup lower-cases the name it is
    given, so `Cache-Control`, `cache-control` and `CACHE-CONTROL` find
    the same entry. */
module HttpHeaders {
  import opened Strings

  type Headers = map<string, string>

  /** `name in headers`. */
  predicate Has(headers: Headers, name: string) {
    Lower(name) in headers
  }

  /** `headers[name]`, for a header the response carries. */
  function At(headers: Headers, name: string): string
    requires Has(headers, name)
  {
    headers[Lower(name)]
  }

  /** `headers.get(name, '')`. */
  function GetOrEmpty(headers: Headers, name: string): (r: string)
    ensures Has(headers, name) ==> r == At(headers, name)
    ensures !Has(headers, name) ==> r == ""
  {
    if Has(headers, name) then At(headers, name) else ""
  }

  /** A lookup does not depend on the case of the name: a name and its
      lower-cased spelling find the same entry. */
  lemma LookupIgnoresCase(headers: Headers, name: string)
    ensures Has(headers, name) <==> Has(headers, Lower(name))
    ensures Has(headers, name) ==> At(headers, name) == At(headers, Lower(name))
  {
    LowerIdempotent(name);
  }
}
