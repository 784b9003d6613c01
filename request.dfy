/** The search request: the URL it is posted to (constructUrl) and the body
    built from the fixed query template (searchq, constructQuery). */
module Request {
  import opened Basics
  import opened JsonTree
  import Ansi

  const EsUrl: string := "http://localhost:9200"
  const SearchPath: string := "/aos64-*/_search"
  const Header: string := "Content-Type: application/json; charset=UTF-8\r\n"

  /** The arguments of constructQuery: the body is the tree Document builds
      from them. */
  datatype QueryBody = QueryBody(query: string, from: string, size: string)

  /** What cmdQuery hands to the HTTP client: a POST of the body to `url`. The
      body travels as jsoncpp's styled serialisation of its tree, which is not
      modelled. */
  datatype HttpRequest = HttpRequest(url: string, header: string, body: QueryBody)

  /** constructUrl: the server's base URL followed by the given path. */
  function ConstructUrl(url: string): (r: string)
    ensures |r| == |EsUrl| + |url|
    ensures r[..|EsUrl|] == EsUrl && r[|EsUrl|..] == url
  {
    EsUrl + url
  }

  lemma SearchUrl()
    ensures ConstructUrl(SearchPath) == "http://localhost:9200/aos64-*/_search"
  {
  }

  /** The tree jsoncpp parses from searchq. */
  const Template: Json := JObj(map[
    "from" := JNum(0),
    "size" := JNum(1),
    "highlight" := JObj(map[
      "pre_tags" := JArr([JStr("some_tag")]),
      "post_tags" := JArr([JStr("some_tag")]),
      "fields" := JObj(map["*" := JObj(map[])]),
      "require_field_match" := JBool(false),
      "fragment_size" := JNum(2147483647)
    ]),
    "query" := JObj(map[
      "query_string" := JObj(map[
        "default_field" := JStr("text"),
        "fields" := JArr([JStr("*")]),
        "query" := JStr("Host:gas06 AND text:fullauto AND tags:AOS64"),
        "analyze_wildcard" := JBool(true)
      ])
    ]),
    "sort" := JArr([JObj(map["@timestamp" := JObj(map["order" := JStr("desc")])])])
  ])

  /** The five places constructQuery assigns. */
  const QueryPath: seq<Step> := [Member("query"), Member("query_string"), Member("query")]
  const PreTagPath: seq<Step> := [Member("highlight"), Member("pre_tags"), Element(0)]
  const PostTagPath: seq<Step> := [Member("highlight"), Member("post_tags"), Element(0)]
  const FromPath: seq<Step> := [Member("from")]
  const SizePath: seq<Step> := [Member("size")]

  /** A chain of subscripts that reaches none of the assigned places, and is
      not on the way to one. */
  predicate Untouched(q: seq<Step>)
  {
    Diverge(QueryPath, q) && Diverge(PreTagPath, q) && Diverge(PostTagPath, q)
    && Diverge(FromPath, q) && Diverge(SizePath, q)
  }

  lemma TemplateHasPaths()
    ensures Get(Template, QueryPath) == Some(JStr("Host:gas06 AND text:fullauto AND tags:AOS64"))
    ensures Get(Template, PreTagPath) == Some(JStr("some_tag"))
    ensures Get(Template, PostTagPath) == Some(JStr("some_tag"))
    ensures Get(Template, FromPath) == Some(JNum(0))
    ensures Get(Template, SizePath) == Some(JNum(1))
  {
  }

  /** Every place constructQuery assigns exists in `j`. */
  predicate HasAssignedPaths(j: Json)
  {
    Get(j, QueryPath).Some? && Get(j, PreTagPath).Some? && Get(j, PostTagPath).Some?
    && Get(j, FromPath).Some? && Get(j, SizePath).Some?
  }

  /** The assignments of constructQuery, in the source's order, applied to `j`. */
  function Fill(j: Json, query: string, from: string, size: string): Json
    requires HasAssignedPaths(j)
  {
    var j1 := Put(j, QueryPath, JStr(query));
    PutFrame(j, QueryPath, JStr(query), PreTagPath);
    PutFrame(j, QueryPath, JStr(query), PostTagPath);
    PutFrame(j, QueryPath, JStr(query), FromPath);
    PutFrame(j, QueryPath, JStr(query), SizePath);
    var j2 := Put(j1, PreTagPath, JStr(Ansi.Red));
    PutFrame(j1, PreTagPath, JStr(Ansi.Red), PostTagPath);
    PutFrame(j1, PreTagPath, JStr(Ansi.Red), FromPath);
    PutFrame(j1, PreTagPath, JStr(Ansi.Red), SizePath);
    var j3 := Put(j2, PostTagPath, JStr(Ansi.Reset));
    PutFrame(j2, PostTagPath, JStr(Ansi.Reset), FromPath);
    PutFrame(j2, PostTagPath, JStr(Ansi.Reset), SizePath);
    var j4 := Put(j3, FromPath, JStr(from));
    PutFrame(j3, FromPath, JStr(from), SizePath);
    Put(j4, SizePath, JStr(size))
  }

  /** constructQuery: a copy of the template with the query string, both
      highlight tags, `from` and `size` assigned. `from` and `size` are stored
      as strings. */
  function BuildQuery(query: string, from: string, size: string): Json
  {
    TemplateHasPaths();
    Fill(Template, query, from, size)
  }

  /** Each assigned place holds its value after all five assignments. */
  lemma FillValues(j: Json, query: string, from: string, size: string)
    requires HasAssignedPaths(j)
    ensures Get(Fill(j, query, from, size), QueryPath) == Some(JStr(query))
    ensures Get(Fill(j, query, from, size), PreTagPath) == Some(JStr(Ansi.Red))
    ensures Get(Fill(j, query, from, size), PostTagPath) == Some(JStr(Ansi.Reset))
    ensures Get(Fill(j, query, from, size), FromPath) == Some(JStr(from))
    ensures Get(Fill(j, query, from, size), SizePath) == Some(JStr(size))
  {
    var j1 := Put(j, QueryPath, JStr(query));
    PutFrame(j, QueryPath, JStr(query), PreTagPath);
    PutFrame(j, QueryPath, JStr(query), PostTagPath);
    PutFrame(j, QueryPath, JStr(query), FromPath);
    PutFrame(j, QueryPath, JStr(query), SizePath);
    var j2 := Put(j1, PreTagPath, JStr(Ansi.Red));
    PutFrame(j1, PreTagPath, JStr(Ansi.Red), PostTagPath);
    PutFrame(j1, PreTagPath, JStr(Ansi.Red), FromPath);
    PutFrame(j1, PreTagPath, JStr(Ansi.Red), SizePath);
    var j3 := Put(j2, PostTagPath, JStr(Ansi.Reset));
    PutFrame(j2, PostTagPath, JStr(Ansi.Reset), FromPath);
    PutFrame(j2, PostTagPath, JStr(Ansi.Reset), SizePath);
    var j4 := Put(j3, FromPath, JStr(from));
    PutFrame(j3, FromPath, JStr(from), SizePath);
    // each value, carried past the assignments that come after it
    PutGet(j, QueryPath, JStr(query));
    PutFrame(j1, PreTagPath, JStr(Ansi.Red), QueryPath);
    PutFrame(j2, PostTagPath, JStr(Ansi.Reset), QueryPath);
    PutFrame(j3, FromPath, JStr(from), QueryPath);
    PutFrame(j4, SizePath, JStr(size), QueryPath);
    PutGet(j1, PreTagPath, JStr(Ansi.Red));
    PutFrame(j2, PostTagPath, JStr(Ansi.Reset), PreTagPath);
    PutFrame(j3, FromPath, JStr(from), PreTagPath);
    PutFrame(j4, SizePath, JStr(size), PreTagPath);
    PutGet(j2, PostTagPath, JStr(Ansi.Reset));
    PutFrame(j3, FromPath, JStr(from), PostTagPath);
    PutFrame(j4, SizePath, JStr(size), PostTagPath);
    PutGet(j3, FromPath, JStr(from));
    PutFrame(j4, SizePath, JStr(size), FromPath);
    PutGet(j4, SizePath, JStr(size));
  }

  /** Nothing off the assigned places changes. */
  lemma FillFrame(j: Json, query: string, from: string, size: string, q: seq<Step>)
    requires HasAssignedPaths(j)
    requires Untouched(q)
    ensures Get(Fill(j, query, from, size), q) == Get(j, q)
  {
    var j1 := Put(j, QueryPath, JStr(query));
    PutFrame(j, QueryPath, JStr(query), PreTagPath);
    PutFrame(j, QueryPath, JStr(query), PostTagPath);
    PutFrame(j, QueryPath, JStr(query), FromPath);
    PutFrame(j, QueryPath, JStr(query), SizePath);
    var j2 := Put(j1, PreTagPath, JStr(Ansi.Red));
    PutFrame(j1, PreTagPath, JStr(Ansi.Red), PostTagPath);
    PutFrame(j1, PreTagPath, JStr(Ansi.Red), FromPath);
    PutFrame(j1, PreTagPath, JStr(Ansi.Red), SizePath);
    var j3 := Put(j2, PostTagPath, JStr(Ansi.Reset));
    PutFrame(j2, PostTagPath, JStr(Ansi.Reset), FromPath);
    PutFrame(j2, PostTagPath, JStr(Ansi.Reset), SizePath);
    var j4 := Put(j3, FromPath, JStr(from));
    PutFrame(j3, FromPath, JStr(from), SizePath);
    PutFrame(j, QueryPath, JStr(query), q);
    PutFrame(j1, PreTagPath, JStr(Ansi.Red), q);
    PutFrame(j2, PostTagPath, JStr(Ansi.Reset), q);
    PutFrame(j3, FromPath, JStr(from), q);
    PutFrame(j4, SizePath, JStr(size), q);
  }

  /** The request body is the template except at the five assigned places: the
      query text verbatim, the red code and the reset code as the only highlight
      tags, and `from`/`size` as the given strings. */
  lemma BuildQuerySpec(query: string, from: string, size: string)
    ensures Get(BuildQuery(query, from, size), QueryPath) == Some(JStr(query))
    ensures Get(BuildQuery(query, from, size), PreTagPath) == Some(JStr(Ansi.Red))
    ensures Get(BuildQuery(query, from, size), PostTagPath) == Some(JStr(Ansi.Reset))
    ensures Get(BuildQuery(query, from, size), FromPath) == Some(JStr(from))
    ensures Get(BuildQuery(query, from, size), SizePath) == Some(JStr(size))
    ensures forall q :: Untouched(q) ==> Get(BuildQuery(query, from, size), q) == Get(Template, q)
  {
    TemplateHasPaths();
    FillValues(Template, query, from, size);
    forall q | Untouched(q)
      ensures Get(BuildQuery(query, from, size), q) == Get(Template, q)
    {
      FillFrame(Template, query, from, size, q);
    }
  }

  /** The tree of a request body. */
  function Document(b: QueryBody): Json
  {
    BuildQuery(b.query, b.from, b.size)
  }

  /** The template itself stores `from` and `size` as numbers; the built body
      replaces them with strings whatever the session variables hold. */
  lemma PaginationBecomesStrings(query: string, from: string, size: string)
    ensures Get(Template, FromPath).value.JNum? && Get(Template, SizePath).value.JNum?
    ensures Get(BuildQuery(query, from, size), FromPath).value.JStr?
    ensures Get(BuildQuery(query, from, size), SizePath).value.JStr?
  {
    TemplateHasPaths();
    BuildQuerySpec(query, from, size);
  }
}
