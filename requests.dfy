/** The request the client sends: its form body, the flat name/value list
    handed to the JDK request builder, and the headers the built request
    carries.  The JDK keeps request headers in a map keyed by name without
    regard to case; `ValuesOf` is that view of a header list. */
module Requests {
  import opened Results

  const CONTENT_TYPE: string := "Content-Type"
  const APPLICATION_FORM_URLENCODED: string := "application/x-www-form-urlencoded"

  /** One entry of a header map, in the map's iteration order. */
  datatype Header = Header(name: string, value: string)

  datatype HttpMethod = POST

  /** Which of the two request-building overloads produced a request. */
  datatype Builder = WithoutHeaders | WithHeaders

  datatype HttpRequest = HttpRequest(
    uri: string,
    builder: Builder,
    httpMethod: HttpMethod,
    headers: seq<Header>,
    body: string)

  // ---------------------------------------------------------------------
  // Body

  /** The payload, followed by `&` and the custom payload when one is set. */
  function Body(payload: string, customPayload: Option<string>): (body: string)
    ensures |payload| <= |body| && body[..|payload|] == payload
    ensures customPayload.None? ==> body == payload
    ensures customPayload.Some? ==>
      body[|payload|..] == "&" + customPayload.value
  {
    match customPayload
    case None => payload
    case Some(custom) => payload + "&" + custom
  }

  // ---------------------------------------------------------------------
  // Flat header lists

  /** Name, value, name, value, ... of `hs`, in order. */
  function Flatten(hs: seq<Header>): seq<string> {
    if hs == [] then []
    else Flatten(hs[..|hs| - 1]) + [hs[|hs| - 1].name, hs[|hs| - 1].value]
  }

  /** Pairs up a flat list the way the JDK builder's `headers(String...)` reads it. */
  function Unflatten(flat: seq<string>): seq<Header>
    requires |flat| % 2 == 0
  {
    if flat == [] then []
    else Unflatten(flat[..|flat| - 2]) + [Header(flat[|flat| - 2], flat[|flat| - 1])]
  }

  lemma {:induction false} FlattenLength(hs: seq<Header>)
    ensures |Flatten(hs)| == 2 * |hs|
  {
    if hs != [] {
      FlattenLength(hs[..|hs| - 1]);
    }
  }

  /** The flat list is twice as long as the entry list, and alternates each
      entry's name with its value, in entry order. */
  lemma {:induction false} FlattenShape(hs: seq<Header>)
    ensures |Flatten(hs)| == 2 * |hs|
    ensures forall k :: 0 <= k < |hs| ==>
      Flatten(hs)[2 * k] == hs[k].name && Flatten(hs)[2 * k + 1] == hs[k].value
  {
    FlattenLength(hs);
    if hs != [] {
      FlattenShape(hs[..|hs| - 1]);
    }
  }

  /** Flattening a concatenation keeps the first list's pairs ahead of the second's. */
  lemma {:induction false} FlattenAppend(a: seq<Header>, b: seq<Header>)
    ensures Flatten(a + b) == Flatten(a) + Flatten(b)
  {
    if b != [] {
      assert (a + b)[..|a + b| - 1] == a + b[..|b| - 1];
      FlattenAppend(a, b[..|b| - 1]);
    } else {
      assert a + b == a;
    }
  }

  /** The builder reads back exactly the entries that were flattened. */
  lemma {:induction false} UnflattenFlatten(hs: seq<Header>)
    ensures |Flatten(hs)| % 2 == 0
    ensures Unflatten(Flatten(hs)) == hs
  {
    FlattenLength(hs);
    if hs != [] {
      var init, last := hs[..|hs| - 1], hs[|hs| - 1];
      var f := Flatten(hs);
      FlattenLength(init);
      assert f == Flatten(init) + [last.name, last.value];
      assert f[..|f| - 2] == Flatten(init);
      assert f[|f| - 2] == last.name && f[|f| - 1] == last.value;
      UnflattenFlatten(init);
      assert hs == init + [last];
    }
  }

  /** Every even-length flat list is the flattening of its pairs. */
  lemma {:induction false} FlattenUnflatten(flat: seq<string>)
    requires |flat| % 2 == 0
    ensures Flatten(Unflatten(flat)) == flat
  {
    if flat != [] {
      var u := Unflatten(flat);
      assert u[..|u| - 1] == Unflatten(flat[..|flat| - 2]);
      FlattenUnflatten(flat[..|flat| - 2]);
    }
  }

  // ---------------------------------------------------------------------
  // Header names, compared without regard to case

  function LowerChar(c: char): char {
    if 'A' <= c <= 'Z' then (c as int + 32) as char else c
  }

  function Lower(s: string): string {
    seq(|s|, i requires 0 <= i < |s| => LowerChar(s[i]))
  }

  predicate SameName(a: string, b: string) {
    Lower(a) == Lower(b)
  }

  /** The values a header list carries for `name`, in order. */
  function ValuesOf(hs: seq<Header>, name: string): seq<string> {
    if hs == [] then []
    else
      ValuesOf(hs[..|hs| - 1], name)
      + (if SameName(hs[|hs| - 1].name, name) then [hs[|hs| - 1].value] else [])
  }

  lemma {:induction false} ValuesOfAppend(a: seq<Header>, b: seq<Header>, name: string)
    ensures ValuesOf(a + b, name) == ValuesOf(a, name) + ValuesOf(b, name)
  {
    if b != [] {
      assert (a + b)[..|a + b| - 1] == a + b[..|b| - 1];
      ValuesOfAppend(a, b[..|b| - 1], name);
    } else {
      assert a + b == a;
    }
  }

  /** `hs` without the entries named `name`. */
  function RemoveNamed(hs: seq<Header>, name: string): seq<Header> {
    if hs == [] then []
    else
      RemoveNamed(hs[..|hs| - 1], name)
      + (if SameName(hs[|hs| - 1].name, name) then [] else [hs[|hs| - 1]])
  }

  lemma {:induction false} RemoveNamedValues(hs: seq<Header>, name: string, n: string)
    ensures ValuesOf(RemoveNamed(hs, name), n) == if SameName(name, n) then [] else ValuesOf(hs, n)
  {
    if hs != [] {
      var last := hs[|hs| - 1];
      RemoveNamedValues(hs[..|hs| - 1], name, n);
      ValuesOfAppend(RemoveNamed(hs[..|hs| - 1], name),
                     if SameName(last.name, name) then [] else [last], n);
    }
  }

  /** The builder's `setHeader`: replaces every value of the header. */
  function SetHeader(hs: seq<Header>, name: string, value: string): seq<Header> {
    RemoveNamed(hs, name) + [Header(name, value)]
  }

  /** After `setHeader(name, value)` the header has `value` as its only value
      and every other header keeps its values. */
  lemma SetHeaderValues(hs: seq<Header>, name: string, value: string, n: string)
    ensures ValuesOf(SetHeader(hs, name, value), n)
         == if SameName(name, n) then [value] else ValuesOf(hs, n)
  {
    ValuesOfAppend(RemoveNamed(hs, name), [Header(name, value)], n);
    RemoveNamedValues(hs, name, n);
    assert [Header(name, value)][..0] == [];
  }

  lemma SetHeaderValuesEverywhere(hs: seq<Header>, name: string, value: string)
    ensures forall n :: ValuesOf(SetHeader(hs, name, value), n)
                     == if SameName(name, n) then [value] else ValuesOf(hs, n)
  {
    forall n ensures ValuesOf(SetHeader(hs, name, value), n)
                     == if SameName(name, n) then [value] else ValuesOf(hs, n) {
      SetHeaderValues(hs, name, value, n);
    }
  }

  // ---------------------------------------------------------------------
  // The two request-building overloads

  /** Builds a POST request with no caller headers. */
  function BuildHttpRequestPlain(url: string, payload: string): (r: HttpRequest)
    ensures r.httpMethod == POST && r.body == payload && r.uri == url
    ensures r.headers == [Header(CONTENT_TYPE, APPLICATION_FORM_URLENCODED)]
  {
    HttpRequest(url, WithoutHeaders, POST, SetHeader([], CONTENT_TYPE, APPLICATION_FORM_URLENCODED), payload)
  }

  /** Builds a POST request from a flat name/value list, then forces the
      content type.  The JDK builder's `headers(String...)` takes a non-empty
      list of even length and throws otherwise, which is why the caller falls
      back to the overload without headers. */
  function BuildHttpRequestWithHeaders(url: string, flat: seq<string>, payload: string): (r: HttpRequest)
    requires flat != [] && |flat| % 2 == 0
    ensures r.httpMethod == POST && r.body == payload && r.uri == url
    ensures forall n :: ValuesOf(r.headers, n)
                     == if SameName(CONTENT_TYPE, n) then [APPLICATION_FORM_URLENCODED]
                        else ValuesOf(Unflatten(flat), n)
  {
    var hs := Unflatten(flat);
    SetHeaderValuesEverywhere(hs, CONTENT_TYPE, APPLICATION_FORM_URLENCODED);
    HttpRequest(url, WithHeaders, POST, SetHeader(hs, CONTENT_TYPE, APPLICATION_FORM_URLENCODED), payload)
  }
}
