/** `ClassificationSystem` of `lccs/class_system.py`: a read-only view over the
    JSON object the server returned for one classification system, with
    accessors for its fields and navigation to its classes through the first
    hypermedia link whose relation is `classes`. */
module ClassSystem {
  import opened Values
  import opened Http
  import Utils

  /** A hypermedia link. `lccs/link.py` is not part of this model: a `Link` is an
      opaque wrapper over the entry it is built from. */
  datatype Link = Link(data: Json)

  /** What `classes()` returns. `lccs/classes.py` is not part of this model, so
      each wrapper is opaque over what it is built from. */
  datatype ClassesView =
    | SingleClass(data: Value, validate: bool) // ClassificationSystemClass(data, validate)
    | ClassLookup(data: Value)                 // the get_class accessor of ClassificationSystemClasses(data)
    | ClassCollection(data: Value)             // ClassificationSystemClasses(data) itself

  /** The answer of `classes()` together with the GET it issued, if any. */
  datatype ClassesOutcome = ClassesOutcome(result: Result<ClassesView>, request: Option<Request>)

  const EmptyCollection: ClassesView := ClassCollection(Doc(JObj(map[])))

  /** The entry's `rel` can be read and is not `rel`. */
  predicate RelOtherThan(link: Json, rel: string) {
    Subscript(link, "rel").Ok? && Subscript(link, "rel").value != JStr(rel)
  }

  /** The first entry whose `rel` equals `rel`, scanning in order; reading the
      `rel` of an entry before it may raise. */
  function FirstWithRel(links: seq<Json>, rel: string): (r: Result<Option<Json>>)
    ensures r.Ok? && r.value.Some? ==> r.value.value in links && Subscript(r.value.value, "rel") == Ok(JStr(rel))
    decreases |links|
  {
    if links == [] then Ok(None)
    else
      match Subscript(links[0], "rel")
      case Err(e) => Err(e)
      case Ok(r) => if r == JStr(rel) then Ok(Some(links[0])) else FirstWithRel(links[1..], rel)
  }

  /** Only the first matching entry counts; whatever follows it is never read. */
  lemma {:induction false} FirstWithRelIsFirst(before: seq<Json>, link: Json, after: seq<Json>, rel: string)
    requires forall i :: 0 <= i < |before| ==> RelOtherThan(before[i], rel)
    requires Subscript(link, "rel") == Ok(JStr(rel))
    ensures FirstWithRel(before + [link] + after, rel) == Ok(Some(link))
  {
    if before != [] {
      assert (before + [link] + after)[1..] == before[1..] + [link] + after;
      FirstWithRelIsFirst(before[1..], link, after, rel);
    }
  }

  /** There is no matching entry, and no error, exactly when every entry has a
      readable `rel` other than `rel`. */
  lemma {:induction false} FirstWithRelNone(links: seq<Json>, rel: string)
    ensures FirstWithRel(links, rel) == Ok(None) <==> forall i :: 0 <= i < |links| ==> RelOtherThan(links[i], rel)
    decreases |links|
  {
    if links != [] {
      FirstWithRelNone(links[1..], rel);
      assert forall i :: 1 <= i < |links| ==> links[1..][i - 1] == links[i];
    }
  }

  datatype ClassificationSystem = ClassificationSystem(fields: map<string, Json>, validate: bool) {

    /** `self[key]`. */
    function Field(key: string): (r: Result<Json>)
      ensures key in fields ==> r == Ok(fields[key])
      ensures key !in fields ==> r == Err(KeyError(key))
    {
      Subscript(JObj(fields), key)
    }

    function Description(): (r: Result<Json>)
      ensures "description" in fields ==> r == Ok(fields["description"])
      ensures "description" !in fields ==> r == Err(KeyError("description"))
    {
      Field("description")
    }

    function Version(): (r: Result<Json>)
      ensures "version" in fields ==> r == Ok(fields["version"])
      ensures "version" !in fields ==> r == Err(KeyError("version"))
    {
      Field("version")
    }

    function Name(): (r: Result<Json>)
      ensures "name" in fields ==> r == Ok(fields["name"])
      ensures "name" !in fields ==> r == Err(KeyError("name"))
    {
      Field("name")
    }

    function Id(): (r: Result<Json>)
      ensures "id" in fields ==> r == Ok(fields["id"])
      ensures "id" !in fields ==> r == Err(KeyError("id"))
    {
      Field("id")
    }

    function AuthorityName(): (r: Result<Json>)
      ensures "authority_name" in fields ==> r == Ok(fields["authority_name"])
      ensures "authority_name" !in fields ==> r == Err(KeyError("authority_name"))
    {
      Field("authority_name")
    }

    /** `links`: one `Link` per entry of `self['links']`, in the same order. */
    function Links(): (r: Result<seq<Link>>)
      ensures r.Ok? <==> "links" in fields && Elements(fields["links"]).Ok?
      ensures r.Ok? ==> |r.value| == |Elements(fields["links"]).value|
      ensures r.Ok? ==> forall i :: 0 <= i < |r.value| ==> r.value[i] == Link(Elements(fields["links"]).value[i])
    {
      match Field("links")
      case Err(e) => Err(e)
      case Ok(links) =>
        match Elements(links)
        case Err(e) => Err(e)
        case Ok(entries) => Ok(seq(|entries|, i requires 0 <= i < |entries| => Link(entries[i])))
    }

    /** `classes(class_id, filter)`: follows the first link whose `rel` is
        `classes`. With a class id it fetches `{href}/{class_id}` and wraps one
        class; without one it fetches `href` with `filter` as the query and
        returns the collection's lookup accessor. Without such a link it
        returns an empty collection and fetches nothing. */
    function Classes(classId: Option<string>, filter: Option<Json>, server: Server): (r: ClassesOutcome)
      ensures r.request.None? ==> r.result.Err? || r.result == Ok(EmptyCollection)
      ensures r.request.Some? ==> r.request.value.GetRequest?
      ensures r.request.Some? && classId.Some? ==>
                r.request.value.params.None? && r.result == WrapClass(Utils.Get(server, r.request.value.url, None))
      ensures r.request.Some? && classId.None? ==>
                r.request.value.params == filter && r.result == WrapLookup(Utils.Get(server, r.request.value.url, filter))
    {
      match Field("links")
      case Err(e) => ClassesOutcome(Err(e), None)
      case Ok(links) =>
        match Elements(links)
        case Err(e) => ClassesOutcome(Err(e), None)
        case Ok(entries) =>
          match FirstWithRel(entries, "classes")
          case Err(e) => ClassesOutcome(Err(e), None)
          case Ok(None) => ClassesOutcome(Ok(EmptyCollection), None)
          case Ok(Some(link)) =>
            match Subscript(link, "href")
            case Err(e) => ClassesOutcome(Err(e), None)
            case Ok(href) =>
              if !href.JStr? then ClassesOutcome(Err(TypeError), None)
              else if classId.Some? then
                var url := href.s + "/" + classId.value;
                ClassesOutcome(WrapClass(Utils.Get(server, url, None)), Some(GetRequest(url, None)))
              else
                ClassesOutcome(WrapLookup(Utils.Get(server, href.s, filter)), Some(GetRequest(href.s, filter)))
    }

    function WrapClass(fetched: Result<Value>): Result<ClassesView> {
      match fetched
      case Err(e) => Err(e)
      case Ok(data) => Ok(SingleClass(data, validate))
    }

    function WrapLookup(fetched: Result<Value>): Result<ClassesView> {
      match fetched
      case Err(e) => Err(e)
      case Ok(data) => Ok(ClassLookup(data))
    }
  }

  /** `ClassificationSystem(data, validate)`, which builds `dict(data or {})`:
      a false-valued document gives an empty view and a JSON object gives a
      view over exactly its fields. Any other document is refused. */
  function FromData(data: Value, validate: bool): (r: Result<ClassificationSystem>)
    ensures data.Doc? && !Truthy(data.json) ==> r == Ok(ClassificationSystem(map[], validate))
    ensures data.Doc? && data.json.JObj? ==> r == Ok(ClassificationSystem(data.json.fields, validate))
    ensures r.Ok? <==> data.Doc? && (data.json.JObj? || !Truthy(data.json))
    ensures r.Err? ==> r.error == TypeError
  {
    match data
    case Doc(j) =>
      if !Truthy(j) then Ok(ClassificationSystem(map[], validate))
      else if j.JObj? then Ok(ClassificationSystem(j.fields, validate))
      else Err(TypeError)
    case File(_, _) => Err(TypeError)
  }

  /** With a `classes` link present, `classes()` issues exactly one GET, built
      from the first such link alone, whatever links follow it. */
  lemma ClassesFollowsFirstLink(cs: ClassificationSystem, before: seq<Json>, link: Json, after: seq<Json>,
                                href: string, classId: Option<string>, filter: Option<Json>, server: Server)
    requires "links" in cs.fields && cs.fields["links"] == JArr(before + [link] + after)
    requires forall i :: 0 <= i < |before| ==> RelOtherThan(before[i], "classes")
    requires Subscript(link, "rel") == Ok(JStr("classes"))
    requires Subscript(link, "href") == Ok(JStr(href))
    ensures classId.Some? ==>
              cs.Classes(classId, filter, server) ==
              ClassesOutcome(cs.WrapClass(Utils.Get(server, href + "/" + classId.value, None)),
                             Some(GetRequest(href + "/" + classId.value, None)))
    ensures classId.None? ==>
              cs.Classes(classId, filter, server) ==
              ClassesOutcome(cs.WrapLookup(Utils.Get(server, href, filter)), Some(GetRequest(href, filter)))
  {
    FirstWithRelIsFirst(before, link, after, "classes");
  }

  /** With no `classes` link, `classes()` returns an empty collection and fetches nothing. */
  lemma ClassesWithoutLink(cs: ClassificationSystem, links: seq<Json>, classId: Option<string>, filter: Option<Json>, server: Server)
    requires "links" in cs.fields && cs.fields["links"] == JArr(links)
    requires forall i :: 0 <= i < |links| ==> RelOtherThan(links[i], "classes")
    ensures cs.Classes(classId, filter, server) == ClassesOutcome(Ok(EmptyCollection), None)
  {
    FirstWithRelNone(links, "classes");
  }
}
