/** The `LCCS` client facade of `lccs/lccs.py`: a base URL, a lazily filled
    registry of classification systems keyed by name (or by the id they were
    asked for), URL templates for every endpoint, the filter that lists the
    titles of `child` links, the tagging of mapping groups, and the request and
    path formation of downloads and uploads. */
module Lccs {
  import opened Values
  import opened Http
  import Utils
  import CS = ClassSystem

  /* ---------- URL normalisation and templates ---------- */

  /** `url if url[-1] != '/' else url[0:-1]`: an empty URL raises `IndexError`. */
  function TrimUrl(url: string): (r: Result<string>)
    ensures url == [] <==> r == Err(IndexError)
    ensures url != [] && url[|url| - 1] == '/' ==> r == Ok(url[..|url| - 1])
    ensures url != [] && url[|url| - 1] != '/' ==> r == Ok(url)
  {
    if url == [] then Err(IndexError)
    else if url[|url| - 1] != '/' then Ok(url)
    else Ok(url[..|url| - 1])
  }

  /** Exactly one trailing slash is dropped, so `u + "/"` comes back as `u`,
      even when `u` itself ends in a slash. */
  lemma TrimUrlDropsOneSlash(u: string)
    ensures TrimUrl(u + "/") == Ok(u)
  {
    assert (u + "/")[..|u|] == u;
  }

  /* Each endpoint begins with the base URL and has a fixed length, and the
     last id in it can be read back from its end. */

  function SystemsUrl(base: string): (r: string)
    ensures |r| == |base| + 23 && r[..|base|] == base
  {
    base + "/classification_systems"
  }

  function SystemUrl(base: string, systemId: string): (r: string)
    ensures |r| == |base| + 23 + |systemId| && r[..|base|] == base && r[|r| - |systemId|..] == systemId
  {
    base + "/classification_system/" + systemId
  }

  function StylesUrl(base: string, systemId: string): (r: string)
    ensures |r| == |base| + 30 + |systemId| && r[..|base|] == base && r[|r| - 7..] == "/styles"
  {
    base + "/classification_system/" + systemId + "/styles"
  }

  function StyleUrl(base: string, systemId: string, formatId: string): (r: string)
    ensures |r| == |base| + 31 + |systemId| + |formatId| && r[..|base|] == base && r[|r| - |formatId|..] == formatId
  {
    base + "/classification_system/" + systemId + "/styles/" + formatId
  }

  function MappingsUrl(base: string, source: string): (r: string)
    ensures |r| == |base| + 10 + |source| && r[..|base|] == base && r[|r| - |source|..] == source
  {
    base + "/mappings/" + source
  }

  function MappingUrl(base: string, source: string, target: string): (r: string)
    ensures |r| == |base| + 11 + |source| + |target| && r[..|base|] == base && r[|r| - |target|..] == target
  {
    base + "/mappings/" + source + "/" + target
  }

  /** Distinct ids name distinct system endpoints, so a registry entry stored
      under the id it was asked for matches the URL it was fetched from. */
  lemma {:induction false} SystemUrlInjective(base: string, a: string, b: string)
    requires SystemUrl(base, a) == SystemUrl(base, b)
    ensures a == b
  {
    var prefix := base + "/classification_system/";
    assert SystemUrl(base, a) == prefix + a && SystemUrl(base, b) == prefix + b;
    assert a == (prefix + a)[|prefix|..];
    assert b == (prefix + b)[|prefix|..];
  }

  /** The style endpoints lie under the system's endpoint, and a mapping between
      two systems under the source's mapping list. */
  lemma EndpointsNest(base: string, systemId: string, formatId: string, source: string, target: string)
    ensures StylesUrl(base, systemId) == SystemUrl(base, systemId) + "/styles"
    ensures StyleUrl(base, systemId, formatId) == StylesUrl(base, systemId) + "/" + formatId
    ensures MappingUrl(base, source, target) == MappingsUrl(base, source) + "/" + target
  {
  }

  /* ---------- the registry of classification systems ---------- */

  /** The facade's `_classification_systems` dictionary: its keys in insertion
      order, and the entry under each key. */
  datatype Registry = Registry(names: seq<Json>, systems: map<Json, CS.ClassificationSystem>) {

    /** Keys are distinct and are exactly the dictionary's keys. */
    ghost predicate Valid() {
      Distinct(names) && systems.Keys == (set k | k in names)
    }

    /** `d[key] = cs`: a new key goes last, an existing key keeps its place and
        gets the new entry. */
    function Insert(key: Json, cs: CS.ClassificationSystem): (r: Registry)
      ensures Valid() ==> r.Valid()
      ensures r.systems == systems[key := cs]
      ensures key in systems ==> r.names == names
      ensures key !in systems ==> r.names == names + [key]
    {
      if key in systems then Registry(names, systems[key := cs])
      else
        assert (names + [key])[..|names|] == names;
        Registry(names + [key], systems[key := cs])
    }
  }

  const EmptyRegistry: Registry := Registry([], map[])

  /** No key occurs twice. */
  ghost predicate Distinct(keys: seq<Json>) {
    keys == [] || (Distinct(keys[..|keys| - 1]) && keys[|keys| - 1] !in keys[..|keys| - 1])
  }

  /** Distinct keys differ at every pair of positions. */
  lemma {:induction false} DistinctIndices(keys: seq<Json>)
    requires Distinct(keys)
    ensures forall i, j :: 0 <= i < j < |keys| ==> keys[i] != keys[j]
  {
    if keys != [] {
      var init := keys[..|keys| - 1];
      DistinctIndices(init);
      assert forall i :: 0 <= i < |init| ==> init[i] == keys[i];
    }
  }

  /** One pass of the loop of `get_classification_systems`:
      `ClassificationSystem(i, validate)` is built first, then the key
      `i['name']` is read, and it must be hashable to be stored. */
  function Entry(e: Json, validate: bool): (r: Result<(Json, CS.ClassificationSystem)>)
    ensures r.Ok? <==> CS.FromData(Doc(e), validate).Ok? && Subscript(e, "name").Ok? && Hashable(Subscript(e, "name").value)
    ensures r.Ok? ==> r.value == (Subscript(e, "name").value, CS.FromData(Doc(e), validate).value)
  {
    match CS.FromData(Doc(e), validate)
    case Err(x) => Err(x)
    case Ok(cs) =>
      match Subscript(e, "name")
      case Err(x) => Err(x)
      case Ok(key) => if Hashable(key) then Ok((key, cs)) else Err(TypeError)
  }

  /** The registry after the loop, and the exception that stopped it, if any. */
  datatype Filled = Filled(registry: Registry, failure: Option<Error>)

  /** The loop of `get_classification_systems` over `entries`: it stores entry
      after entry and stops at the first one that raises, keeping what it
      stored before. */
  function Fill(reg: Registry, entries: seq<Json>, validate: bool): (r: Filled)
    ensures reg.Valid() ==> r.registry.Valid()
    decreases |entries|
  {
    if entries == [] then Filled(reg, None)
    else Step(Fill(reg, entries[..|entries| - 1], validate), entries[|entries| - 1], validate)
  }

  /** One pass of the loop after the passes before it. */
  function Step(prev: Filled, e: Json, validate: bool): (r: Filled)
    ensures prev.registry.Valid() ==> r.registry.Valid()
  {
    if prev.failure.Some? then prev
    else
      match Entry(e, validate)
      case Err(x) => Filled(prev.registry, Some(x))
      case Ok(entry) => Filled(prev.registry.Insert(entry.0, entry.1), None)
  }

  /** A pass whose entry can be stored stores it. */
  lemma StepStores(prev: Filled, e: Json, validate: bool)
    requires prev.failure.None? && Entry(e, validate).Ok?
    ensures Step(prev, e, validate) == Filled(prev.registry.Insert(Entry(e, validate).value.0, Entry(e, validate).value.1), None)
  {
  }

  /** The loop over one more entry is one more pass. */
  lemma FillExtend(reg: Registry, entries: seq<Json>, i: nat, validate: bool)
    requires i < |entries|
    ensures Fill(reg, entries[..i + 1], validate) == Step(Fill(reg, entries[..i], validate), entries[i], validate)
  {
    assert entries[..i + 1][..i] == entries[..i];
  }

  /** Once an entry has raised, the later entries change nothing. */
  lemma {:induction false} FillStops(reg: Registry, entries: seq<Json>, k: nat, validate: bool)
    requires k <= |entries|
    requires Fill(reg, entries[..k], validate).failure.Some?
    ensures Fill(reg, entries, validate) == Fill(reg, entries[..k], validate)
    decreases |entries| - k
  {
    if k < |entries| {
      var init := entries[..|entries| - 1];
      assert init[..k] == entries[..k];
      FillStops(reg, init, k, validate);
    } else {
      assert entries[..k] == entries;
    }
  }

  /** The (name, view) pairs that entries which can all be stored give, in order. */
  ghost function Pairs(entries: seq<Json>, validate: bool): (r: seq<(Json, CS.ClassificationSystem)>)
    requires forall i :: 0 <= i < |entries| ==> Entry(entries[i], validate).Ok?
    ensures |r| == |entries|
    ensures forall i :: 0 <= i < |entries| ==> r[i] == Entry(entries[i], validate).value
  {
    seq(|entries|, i requires 0 <= i < |entries| => Entry(entries[i], validate).value)
  }

  /** The assignments `d[name] = view` of `pairs`, one after the other. */
  function InsertAll(reg: Registry, pairs: seq<(Json, CS.ClassificationSystem)>): (r: Registry)
    ensures reg.Valid() ==> r.Valid()
    decreases |pairs|
  {
    if pairs == [] then reg
    else InsertAll(reg, pairs[..|pairs| - 1]).Insert(pairs[|pairs| - 1].0, pairs[|pairs| - 1].1)
  }

  /** When no entry raises, the loop runs to the end and makes exactly the
      assignments of the entries' pairs, in order. */
  lemma {:induction false} FillStoresAll(reg: Registry, entries: seq<Json>, validate: bool)
    requires forall i :: 0 <= i < |entries| ==> Entry(entries[i], validate).Ok?
    ensures Fill(reg, entries, validate) == Filled(InsertAll(reg, Pairs(entries, validate)), None)
    decreases |entries|
  {
    if entries != [] {
      var n := |entries| - 1;
      var init := entries[..n];
      FillStoresAll(reg, init, validate);
      var pairs := Pairs(entries, validate);
      assert pairs[..n] == Pairs(init, validate) by {
        assert forall i :: 0 <= i < n ==> init[i] == entries[i];
      }
    }
  }

  /** A key is present after the assignments exactly when it was present before
      or some pair assigns it. */
  lemma {:induction false} InsertAllHas(reg: Registry, pairs: seq<(Json, CS.ClassificationSystem)>, k: Json)
    ensures k in InsertAll(reg, pairs).systems <==> k in reg.systems || exists i :: 0 <= i < |pairs| && pairs[i].0 == k
    decreases |pairs|
  {
    if pairs != [] {
      var n := |pairs| - 1;
      var init := pairs[..n];
      InsertAllHas(reg, init, k);
      if exists i :: 0 <= i < |pairs| && pairs[i].0 == k {
        var i :| 0 <= i < |pairs| && pairs[i].0 == k;
        if i < n {
          assert init[i].0 == k;
        }
      }
    }
  }

  /** The old keys keep their places at the front; new keys only follow them. */
  lemma {:induction false} InsertAllAppends(reg: Registry, pairs: seq<(Json, CS.ClassificationSystem)>)
    ensures |reg.names| <= |InsertAll(reg, pairs).names|
    ensures InsertAll(reg, pairs).names[..|reg.names|] == reg.names
    decreases |pairs|
  {
    if pairs != [] {
      var prev := InsertAll(reg, pairs[..|pairs| - 1]);
      InsertAllAppends(reg, pairs[..|pairs| - 1]);
      assert InsertAll(reg, pairs).names[..|prev.names|] == prev.names;
    }
  }

  /** A pair that no later pair shares its key with is the one stored under that
      key: the last assignment to a key wins. */
  lemma {:induction false} InsertAllLastWins(reg: Registry, pairs: seq<(Json, CS.ClassificationSystem)>, i: nat)
    requires i < |pairs|
    requires forall j :: i < j < |pairs| ==> pairs[j].0 != pairs[i].0
    ensures pairs[i].0 in InsertAll(reg, pairs).systems
    ensures InsertAll(reg, pairs).systems[pairs[i].0] == pairs[i].1
    decreases |pairs|
  {
    var n := |pairs| - 1;
    if i < n {
      var init := pairs[..n];
      assert init[i] == pairs[i];
      InsertAllLastWins(reg, init, i);
    }
  }

  /** Keys that no pair assigns keep their entries. */
  lemma {:induction false} InsertAllKeepsOthers(reg: Registry, pairs: seq<(Json, CS.ClassificationSystem)>, k: Json)
    requires k in reg.systems
    requires forall j :: 0 <= j < |pairs| ==> pairs[j].0 != k
    ensures k in InsertAll(reg, pairs).systems
    ensures InsertAll(reg, pairs).systems[k] == reg.systems[k]
    decreases |pairs|
  {
    if pairs != [] {
      InsertAllKeepsOthers(reg, pairs[..|pairs| - 1], k);
    }
  }

  /** The registry and the answer `get_classification_systems` leaves and gives. */
  datatype Loaded = Loaded(registry: Registry, result: Result<seq<Json>>)

  /** `get_classification_systems` on an empty registry, given what the GET of
      the collection returned: the GET's exception propagates, then reading
      `data['classification_systems']` and iterating it may raise, then the
      loop runs; on success the answer is the registry's keys. */
  function Load(reg: Registry, fetched: Result<Value>, validate: bool): (r: Loaded)
    ensures reg.Valid() ==> r.registry.Valid()
    ensures r.result.Ok? ==> r.result.value == r.registry.names
  {
    match fetched
    case Err(e) => Loaded(reg, Err(e))
    case Ok(data) =>
      match SubscriptValue(data, "classification_systems")
      case Err(e) => Loaded(reg, Err(e))
      case Ok(list) =>
        match Elements(list)
        case Err(e) => Loaded(reg, Err(e))
        case Ok(entries) => Conclude(Fill(reg, entries, validate))
  }

  /** The answer after the loop: the exception that stopped it, or the registry's keys. */
  function Conclude(filled: Filled): Loaded {
    match filled.failure
    case Some(e) => Loaded(filled.registry, Err(e))
    case None => Loaded(filled.registry, Ok(filled.registry.names))
  }

  /** Loading a collection whose `classification_systems` is a list of
      well-formed entries into the empty registry gives exactly their names as
      keys, each once, each mapped to the view of the last entry with that
      name; the answer is those keys. Other fields of the reply are ignored. */
  lemma LoadFromEmpty(fields: map<string, Json>, entries: seq<Json>, validate: bool)
    requires "classification_systems" in fields && fields["classification_systems"] == JArr(entries)
    requires forall i :: 0 <= i < |entries| ==> Entry(entries[i], validate).Ok?
    ensures var r := Load(EmptyRegistry, Ok(Doc(JObj(fields))), validate);
            var pairs := Pairs(entries, validate);
            && r.result == Ok(r.registry.names)
            && (forall a, b :: 0 <= a < b < |r.registry.names| ==> r.registry.names[a] != r.registry.names[b])
            && (forall k :: k in r.registry.names <==> exists i :: 0 <= i < |pairs| && pairs[i].0 == k)
            && (forall i :: 0 <= i < |pairs| && (forall j :: i < j < |pairs| ==> pairs[j].0 != pairs[i].0) ==>
                  r.registry.systems[pairs[i].0] == pairs[i].1)
  {
    var fetched: Result<Value> := Ok(Doc(JObj(fields)));
    var pairs := Pairs(entries, validate);
    var registry := InsertAll(EmptyRegistry, pairs);
    FillStoresAll(EmptyRegistry, entries, validate);
    assert SubscriptValue(fetched.value, "classification_systems") == Ok(JArr(entries));
    assert Load(EmptyRegistry, fetched, validate) == Loaded(registry, Ok(registry.names));
    assert registry.Valid();
    DistinctIndices(registry.names);
    forall k
      ensures k in registry.names <==> exists i :: 0 <= i < |pairs| && pairs[i].0 == k
    {
      InsertAllHas(EmptyRegistry, pairs, k);
    }
    forall i | 0 <= i < |pairs| && (forall j :: i < j < |pairs| ==> pairs[j].0 != pairs[i].0) {
      InsertAllLastWins(EmptyRegistry, pairs, i);
    }
  }

  /** `classification_system(id)` on a miss: any exception of the GET or of
      building the view becomes one `KeyError` naming the id. */
  function FetchSystem(fetched: Result<Value>, systemId: string, validate: bool): (r: Result<CS.ClassificationSystem>)
    ensures r.Ok? <==> fetched.Ok? && CS.FromData(fetched.value, validate).Ok?
    ensures r.Ok? ==> r == CS.FromData(fetched.value, validate)
    ensures r.Err? ==> r.error == KeyError("Could not retrieve information for classification_system: " + systemId)
  {
    var built := if fetched.Ok? then CS.FromData(fetched.value, validate) else Err(TypeError);
    if built.Ok? then built else Err(KeyError("Could not retrieve information for classification_system: " + systemId))
  }

  /* ---------- mappings, link titles, downloads, uploads ---------- */

  /** A mapping group. `lccs/mappings.py` is not part of this model: the group
      is an opaque wrapper over the dictionary it is built from. */
  datatype MappingGroup = MappingGroup(data: map<string, Json>, validate: bool)

  const SourceKey: string := "source_classification_system"
  const TargetKey: string := "target_classification_system"

  /** `data[SourceKey] = source; data[TargetKey] = target` on a fetched or posted
      document: only a dictionary accepts them; every other field is kept. */
  function Tag(data: Value, source: string, target: string): (r: Result<map<string, Json>>)
    ensures r.Ok? <==> data.Doc? && data.json.JObj?
    ensures r.Err? ==> r.error == TypeError
    ensures r.Ok? ==> r.value.Keys == data.json.fields.Keys + {SourceKey, TargetKey}
    ensures r.Ok? ==> r.value[SourceKey] == JStr(source) && r.value[TargetKey] == JStr(target)
    ensures r.Ok? ==> forall k :: k in data.json.fields && k != SourceKey && k != TargetKey ==> r.value[k] == data.json.fields[k]
  {
    if data.Doc? && data.json.JObj? then
      Ok(data.json.fields[SourceKey := JStr(source)][TargetKey := JStr(target)])
    else Err(TypeError)
  }

  /** `mappings(source, target)` given what its GET returned. */
  function MappingsOf(fetched: Result<Value>, source: string, target: string, validate: bool): (r: Result<MappingGroup>)
    ensures fetched.Err? ==> r == Err(KeyError("Could not retrieve mappings for " + source + " and " + target))
    ensures fetched.Ok? ==> r.Ok? == Tag(fetched.value, source, target).Ok?
    ensures r.Ok? ==> r.value == MappingGroup(Tag(fetched.value, source, target).value, validate)
    ensures fetched.Ok? && Tag(fetched.value, source, target).Err? ==> r == Err(TypeError)
  {
    match fetched
    case Err(_) => Err(KeyError("Could not retrieve mappings for " + source + " and " + target))
    case Ok(data) =>
      match Tag(data, source, target)
      case Err(e) => Err(e)
      case Ok(tagged) => Ok(MappingGroup(tagged, validate))
  }

  /** The entry can be read by the filter: it has a `rel`, and a `title` if its `rel` is `child`. */
  predicate Readable(link: Json) {
    Subscript(link, "rel").Ok? && (Subscript(link, "rel").value == JStr("child") ==> Subscript(link, "title").Ok?)
  }

  /** `[result.append(i['title']) for i in links if i['rel'] == 'child']`: the
      titles of the `child` links, in order; reading an entry may raise. */
  function ChildTitles(links: seq<Json>): (r: Result<seq<Json>>)
    ensures r.Ok? ==> |r.value| <= |links|
    decreases |links|
  {
    if links == [] then Ok([])
    else
      match Subscript(links[0], "rel")
      case Err(e) => Err(e)
      case Ok(rel) =>
        if rel != JStr("child") then ChildTitles(links[1..])
        else
          match Subscript(links[0], "title")
          case Err(e) => Err(e)
          case Ok(title) =>
            match ChildTitles(links[1..])
            case Err(e) => Err(e)
            case Ok(titles) => Ok([title] + titles)
  }

  /** The result of running two parts of a scan one after the other: the first
      exception, or both answers in order. */
  function Then(first: Result<seq<Json>>, second: Result<seq<Json>>): Result<seq<Json>> {
    match first
    case Err(e) => Err(e)
    case Ok(a) =>
      match second
      case Err(e) => Err(e)
      case Ok(b) => Ok(a + b)
  }

  /** The filter keeps server order: scanning `a + b` is scanning `a`, then `b`. */
  lemma {:induction false} ChildTitlesAppend(a: seq<Json>, b: seq<Json>)
    ensures ChildTitles(a + b) == Then(ChildTitles(a), ChildTitles(b))
    decreases |a|
  {
    if a == [] {
      assert a + b == b;
      match ChildTitles(b)
      case Ok(x) => assert [] + x == x;
      case Err(_) =>
    } else {
      assert (a + b)[0] == a[0];
      assert (a + b)[1..] == a[1..] + b;
      ChildTitlesAppend(a[1..], b);
      if Readable(a[0]) && Subscript(a[0], "rel").value == JStr("child") && ChildTitles(a[1..]).Ok? && ChildTitles(b).Ok? {
        var t, x, y := Subscript(a[0], "title").value, ChildTitles(a[1..]).value, ChildTitles(b).value;
        assert [t] + (x + y) == ([t] + x) + y;
      }
    }
  }

  /** A single entry gives its title when it is a `child` link and nothing otherwise. */
  lemma ChildTitlesOne(link: Json)
    requires Readable(link)
    ensures Subscript(link, "rel").value == JStr("child") ==> ChildTitles([link]) == Ok([Subscript(link, "title").value])
    ensures Subscript(link, "rel").value != JStr("child") ==> ChildTitles([link]) == Ok([])
  {
    assert [link][1..] == [];
    if Subscript(link, "rel").value == JStr("child") {
      assert [Subscript(link, "title").value] + [] == [Subscript(link, "title").value];
    }
  }

  /** The filter raises exactly when some entry cannot be read. */
  lemma {:induction false} ChildTitlesOk(links: seq<Json>)
    ensures ChildTitles(links).Ok? <==> forall i :: 0 <= i < |links| ==> Readable(links[i])
    decreases |links|
  {
    if links != [] {
      ChildTitlesOk(links[1..]);
      assert forall i :: 1 <= i < |links| ==> links[1..][i - 1] == links[i];
    }
  }

  /** Without `child` links the answer is empty, not an error. */
  lemma {:induction false} ChildTitlesNoChild(links: seq<Json>)
    requires forall i :: 0 <= i < |links| ==> CS.RelOtherThan(links[i], "child")
    ensures ChildTitles(links) == Ok([])
    decreases |links|
  {
    if links != [] {
      assert forall i :: 1 <= i < |links| ==> links[1..][i - 1] == links[i];
      ChildTitlesNoChild(links[1..]);
    }
  }

  /** `available_mappings` and `styles` given what their GET returned: a failed
      GET becomes `failure`; then `data['links']` is read and filtered. */
  function LinkTitles(fetched: Result<Value>, failure: Error): (r: Result<seq<Json>>)
    ensures fetched.Err? ==> r == Err(failure)
    ensures fetched.Ok? && !(fetched.value.Doc? && fetched.value.json.JObj?) ==> r == Err(TypeError)
    ensures fetched.Ok? && fetched.value.Doc? && fetched.value.json.JObj? && "links" !in fetched.value.json.fields ==>
              r == Err(KeyError("links"))
    ensures fetched.Ok? && SubscriptValue(fetched.value, "links").Ok? && Elements(SubscriptValue(fetched.value, "links").value).Err? ==>
              r == Err(TypeError)
    ensures fetched.Ok? && SubscriptValue(fetched.value, "links").Ok? && Elements(SubscriptValue(fetched.value, "links").value).Ok? ==>
              r == ChildTitles(Elements(SubscriptValue(fetched.value, "links").value).value)
  {
    match fetched
    case Err(_) => Err(failure)
    case Ok(data) =>
      match SubscriptValue(data, "links")
      case Err(e) => Err(e)
      case Ok(links) =>
        match Elements(links)
        case Err(e) => Err(e)
        case Ok(entries) => ChildTitles(entries)
  }

  /** A file written by `get_styles`: where, and which bytes. */
  datatype FileWrite = FileWrite(path: string, content: seq<byte>)

  /** `path + file_name` when a path is given, else `file_name` (no separator is added). */
  function FullPath(path: Option<string>, fileName: string): (r: string)
    ensures path.None? ==> r == fileName
    ensures path.Some? ==> r == path.value + fileName
  {
    match path
    case None => fileName
    case Some(p) => p + fileName
  }

  /** `get_styles` given what its GET returned: only a binary download can be
      unpacked into `(file_name, data)`; any failure becomes a `KeyError`
      naming the system. */
  function StyleDownload(fetched: Result<Value>, systemId: string, path: Option<string>): (r: Result<FileWrite>)
    ensures r.Ok? <==> fetched.Ok? && fetched.value.File?
    ensures r.Ok? ==> r.value == FileWrite(FullPath(path, fetched.value.name), fetched.value.content)
    ensures r.Err? ==> r.error == KeyError("Could not retrieve any style for " + systemId)
  {
    match fetched
    case Ok(File(name, content)) => Ok(FileWrite(FullPath(path, name), content))
    case _ => Err(KeyError("Could not retrieve any style for " + systemId))
  }

  /** Without a path, a style download is saved under the name its
      `Content-Disposition` gives (or `unknown_file`), with exactly the bytes
      the server sent. */
  lemma StyleSavedUnderDispositionName(server: Server, base: string, systemId: string, formatId: string)
    requires server(GetRequest(StyleUrl(base, systemId, formatId), None)).Delivered?
    requires Contains(Utils.ContentType(server(GetRequest(StyleUrl(base, systemId, formatId), None)).headers), Utils.OctetStream)
    requires Utils.DownloadName(server(GetRequest(StyleUrl(base, systemId, formatId), None)).headers).Some?
    ensures StyleDownload(Utils.Get(server, StyleUrl(base, systemId, formatId), None), systemId, None) ==
            Ok(FileWrite(Utils.DownloadName(server(GetRequest(StyleUrl(base, systemId, formatId), None)).headers).value,
                         server(GetRequest(StyleUrl(base, systemId, formatId), None)).content))
  {
  }

  /** The upload of `add_classification_system`: the four metadata form fields
      and the classes file, sent as `classes.json`. */
  function NewSystemRequest(base: string, name: string, authorityName: string, description: string,
                            version: real, filePath: string): (r: Request)
    ensures r.PostRequest? && r.url == SystemsUrl(base)
    ensures r.form.Keys == {"name", "authority_name", "description", "version"}
    ensures r.form["name"] == JStr(name) && r.form["authority_name"] == JStr(authorityName)
    ensures r.form["description"] == JStr(description) && r.form["version"] == JNum(version)
    ensures r.files == map["classes" := Upload("classes.json", filePath, "application/json")]
  {
    PostRequest(SystemsUrl(base),
                map["name" := JStr(name), "authority_name" := JStr(authorityName),
                    "description" := JStr(description), "version" := JNum(version)],
                map["classes" := Upload("classes.json", filePath, "application/json")])
  }

  /** The upload of `add_style`: the style format as the one form field, and
      the file sent as `style_{system}_{format}.{extension}`. */
  function NewStyleRequest(base: string, systemId: string, styleFormat: string, stylePath: string, extension: string): (r: Request)
    ensures r.PostRequest? && r.url == StylesUrl(base, systemId)
    ensures r.form == map["style_format" := JStr(styleFormat)]
    ensures r.files.Keys == {"style"}
    ensures r.files["style"].localPath == stylePath && r.files["style"].mediaType == "application/octet-stream"
    ensures r.files["style"].fileName == "style_" + systemId + "_" + styleFormat + "." + extension
  {
    PostRequest(StylesUrl(base, systemId), map["style_format" := JStr(styleFormat)],
                map["style" := Upload("style_" + systemId + "_" + styleFormat + "." + extension, stylePath, "application/octet-stream")])
  }

  /** The upload of `add_mapping`: no form fields, and the mapping file sent as `mappings.json`. */
  function NewMappingRequest(base: string, source: string, target: string, mappingsPath: string): (r: Request)
    ensures r.PostRequest? && r.url == MappingUrl(base, source, target) && r.form == map[]
    ensures r.files == map["mappings" := Upload("mappings.json", mappingsPath, "application/json")]
  {
    PostRequest(MappingUrl(base, source, target), map[], map["mappings" := Upload("mappings.json", mappingsPath, "application/json")])
  }

  function Send(server: Server, request: Request): Result<Json>
    requires request.PostRequest?
  {
    Utils.Post(server, request.url, request.form, request.files)
  }

  /* ---------- the client ---------- */

  class LCCS {
    const url: string
    const validate: bool
    var registry: Registry
    /** Every request sent to the server, oldest first. */
    ghost var requests: seq<Request>
    /** Every file written, oldest first. */
    ghost var writes: seq<FileWrite>

    ghost predicate Valid()
      reads this
    {
      registry.Valid()
    }

    /** `LCCS(url, validate)` for a non-empty URL (see `Create` for the empty one). */
    constructor(url: string, validate: bool)
      requires url != []
      ensures Valid()
      ensures TrimUrl(url) == Ok(this.url) && this.validate == validate
      ensures registry == EmptyRegistry && requests == [] && writes == []
    {
      this.url := TrimUrl(url).value;
      this.validate := validate;
      registry := EmptyRegistry;
      requests := [];
      writes := [];
    }

    /** `LCCS(url, validate)`, including the `IndexError` an empty URL raises. */
    static method Create(url: string, validate: bool) returns (r: Result<LCCS>)
      ensures r.Err? <==> url == []
      ensures r.Err? ==> r.error == IndexError
      ensures r.Ok? ==> fresh(r.value) && r.value.Valid() && TrimUrl(url) == Ok(r.value.url)
      ensures r.Ok? ==> r.value.validate == validate && r.value.registry == EmptyRegistry && r.value.requests == [] && r.value.writes == []
    {
      if url == [] {
        return Err(IndexError);
      }
      var client := new LCCS(url, validate);
      return Ok(client);
    }

    /** `get_classification_systems`: a non-empty registry answers with its keys
        and nothing is fetched; an empty one is loaded from one GET of the collection. */
    method GetClassificationSystems(server: Server) returns (r: Result<seq<Json>>)
      requires Valid()
      modifies this
      ensures Valid() && writes == old(writes)
      ensures old(registry).names != [] ==> registry == old(registry) && requests == old(requests) && r == Ok(registry.names)
      ensures old(registry).names == [] ==>
                && requests == old(requests) + [GetRequest(SystemsUrl(url), None)]
                && Loaded(registry, r) == Load(old(registry), Utils.Get(server, SystemsUrl(url), None), validate)
    {
      if |registry.names| > 0 {
        return Ok(registry.names);
      }
      var address := SystemsUrl(url);
      requests := requests + [GetRequest(address, None)];
      var fetched := Utils.Get(server, address, None);
      if fetched.Err? {
        return Err(fetched.error);
      }
      var list := SubscriptValue(fetched.value, "classification_systems");
      if list.Err? {
        return Err(list.error);
      }
      var elements := Elements(list.value);
      if elements.Err? {
        return Err(elements.error);
      }
      var entries := elements.value;
      ghost var start := registry;
      assert Load(start, fetched, validate) == Conclude(Fill(start, entries, validate));
      var i := 0;
      while i < |entries|
        invariant 0 <= i <= |entries|
        invariant Fill(start, entries[..i], validate) == Filled(registry, None)
        invariant Valid()
        invariant requests == old(requests) + [GetRequest(address, None)] && writes == old(writes)
      {
        FillExtend(start, entries, i, validate);
        var cs := CS.FromData(Doc(entries[i]), validate);
        if cs.Err? {
          FillStops(start, entries, i + 1, validate);
          return Err(cs.error);
        }
        var key := Subscript(entries[i], "name");
        if key.Err? {
          FillStops(start, entries, i + 1, validate);
          return Err(key.error);
        }
        if !Hashable(key.value) {
          FillStops(start, entries, i + 1, validate);
          return Err(TypeError);
        }
        assert Entry(entries[i], validate) == Ok((key.value, cs.value));
        registry := registry.Insert(key.value, cs.value);
        i := i + 1;
      }
      assert entries[..i] == entries;
      return Ok(registry.names);
    }

    /** `classification_systems`: the registry's keys as a list, after
        `get_classification_systems`. */
    method ClassificationSystems(server: Server) returns (r: Result<seq<Json>>)
      requires Valid()
      modifies this
      ensures Valid() && writes == old(writes)
      ensures old(registry).names != [] ==> registry == old(registry) && requests == old(requests) && r == Ok(registry.names)
      ensures old(registry).names == [] ==>
                && requests == old(requests) + [GetRequest(SystemsUrl(url), None)]
                && Loaded(registry, r) == Load(old(registry), Utils.Get(server, SystemsUrl(url), None), validate)
    {
      var keys := GetClassificationSystems(server);
      if keys.Err? {
        return keys;
      }
      return Ok(registry.names);
    }

    /** `classification_system(system_id)`: a stored entry is returned without a
        fetch; otherwise one GET, whose result is stored under the id asked for.
        A failure raises `KeyError` and leaves the registry as it was. */
    method ClassificationSystem(server: Server, systemId: string) returns (r: Result<CS.ClassificationSystem>)
      requires Valid()
      modifies this
      ensures Valid() && writes == old(writes)
      ensures JStr(systemId) in old(registry).systems ==>
                r == Ok(old(registry).systems[JStr(systemId)]) && registry == old(registry) && requests == old(requests)
      ensures JStr(systemId) !in old(registry).systems ==>
                && requests == old(requests) + [GetRequest(SystemUrl(url, systemId), None)]
                && r == FetchSystem(Utils.Get(server, SystemUrl(url, systemId), None), systemId, validate)
                && registry == (if r.Ok? then old(registry).Insert(JStr(systemId), r.value) else old(registry))
    {
      var key := JStr(systemId);
      if key in registry.systems {
        return Ok(registry.systems[key]);
      }
      var address := SystemUrl(url, systemId);
      requests := requests + [GetRequest(address, None)];
      var fetched := Utils.Get(server, address, None);
      if fetched.Err? {
        return Err(KeyError("Could not retrieve information for classification_system: " + systemId));
      }
      var cs := CS.FromData(fetched.value, validate);
      if cs.Err? {
        return Err(KeyError("Could not retrieve information for classification_system: " + systemId));
      }
      registry := registry.Insert(key, cs.value);
      return Ok(registry.systems[key]);
    }

    /** `mappings(source, target)`: one GET; the fetched dictionary is tagged
        with both system ids in place. */
    method Mappings(server: Server, source: string, target: string) returns (r: Result<MappingGroup>)
      requires Valid()
      modifies this
      ensures Valid() && registry == old(registry) && writes == old(writes)
      ensures requests == old(requests) + [GetRequest(MappingUrl(url, source, target), None)]
      ensures r == MappingsOf(Utils.Get(server, MappingUrl(url, source, target), None), source, target, validate)
    {
      var address := MappingUrl(url, source, target);
      requests := requests + [GetRequest(address, None)];
      var fetched := Utils.Get(server, address, None);
      if fetched.Err? {
        return Err(KeyError("Could not retrieve mappings for " + source + " and " + target));
      }
      if !(fetched.value.Doc? && fetched.value.json.JObj?) {
        return Err(TypeError);
      }
      var data := fetched.value.json.fields;
      data := data[SourceKey := JStr(source)];
      data := data[TargetKey := JStr(target)];
      return Ok(MappingGroup(data, validate));
    }

    /** `available_mappings(source)`: the titles of the `child` links of the
        source's mapping list. */
    method AvailableMappings(server: Server, source: string) returns (r: Result<seq<Json>>)
      requires Valid()
      modifies this
      ensures Valid() && registry == old(registry) && writes == old(writes)
      ensures requests == old(requests) + [GetRequest(MappingsUrl(url, source), None)]
      ensures r == LinkTitles(Utils.Get(server, MappingsUrl(url, source), None),
                              KeyError("Could not retrieve any avaliable mapping for " + source))
    {
      var address := MappingsUrl(url, source);
      requests := requests + [GetRequest(address, None)];
      var fetched := Utils.Get(server, address, None);
      if fetched.Err? {
        return Err(KeyError("Could not retrieve any avaliable mapping for " + source));
      }
      r := LinkTitles(fetched, KeyError("Could not retrieve any avaliable mapping for " + source));
    }

    /** `styles(system_id)`: the titles of the `child` links of the system's style list. */
    method Styles(server: Server, systemId: string) returns (r: Result<seq<Json>>)
      requires Valid()
      modifies this
      ensures Valid() && registry == old(registry) && writes == old(writes)
      ensures requests == old(requests) + [GetRequest(StylesUrl(url, systemId), None)]
      ensures r == LinkTitles(Utils.Get(server, StylesUrl(url, systemId), None),
                              KeyError("Could not retrieve any style for " + systemId))
    {
      var address := StylesUrl(url, systemId);
      requests := requests + [GetRequest(address, None)];
      var fetched := Utils.Get(server, address, None);
      if fetched.Err? {
        return Err(KeyError("Could not retrieve any style for " + systemId));
      }
      r := LinkTitles(fetched, KeyError("Could not retrieve any style for " + systemId));
    }

    /** `get_styles(system_id, format_id, path)`: one GET of the style file;
        the downloaded bytes are written to the resolved path and their number
        is returned. */
    method GetStyles(server: Server, systemId: string, formatId: string, path: Option<string>) returns (r: Result<nat>)
      requires Valid()
      modifies this
      ensures Valid() && registry == old(registry)
      ensures requests == old(requests) + [GetRequest(StyleUrl(url, systemId, formatId), None)]
      ensures var download := StyleDownload(Utils.Get(server, StyleUrl(url, systemId, formatId), None), systemId, path);
              && (download.Ok? ==> writes == old(writes) + [download.value] && r == Ok(|download.value.content|))
              && (download.Err? ==> writes == old(writes) && r == Err(download.error))
    {
      var address := StyleUrl(url, systemId, formatId);
      requests := requests + [GetRequest(address, None)];
      var fetched := Utils.Get(server, address, None);
      if !(fetched.Ok? && fetched.value.File?) {
        return Err(KeyError("Could not retrieve any style for " + systemId));
      }
      var fullPath := FullPath(path, fetched.value.name);
      writes := writes + [FileWrite(fullPath, fetched.value.content)];
      return Ok(|fetched.value.content|);
    }

    /** `add_classification_system(...)`: one upload; the reply becomes a view.
        Errors of the POST propagate unchanged. */
    method AddClassificationSystem(server: Server, name: string, authorityName: string, description: string,
                                   version: real, filePath: string) returns (r: Result<CS.ClassificationSystem>)
      requires Valid()
      modifies this
      ensures Valid() && registry == old(registry) && writes == old(writes)
      ensures var request := NewSystemRequest(url, name, authorityName, description, version, filePath);
              && requests == old(requests) + [request]
              && r == (match Send(server, request) case Err(e) => Err(e) case Ok(retval) => CS.FromData(Doc(retval), validate))
    {
      var request := NewSystemRequest(url, name, authorityName, description, version, filePath);
      requests := requests + [request];
      var retval := Send(server, request);
      if retval.Err? {
        return Err(retval.error);
      }
      return CS.FromData(Doc(retval.value), validate);
    }

    /** `add_style(...)`: one upload; the answer is the reply's `message`. */
    method AddStyle(server: Server, systemId: string, styleFormat: string, stylePath: string, extension: string)
      returns (r: Result<Json>)
      requires Valid()
      modifies this
      ensures Valid() && registry == old(registry) && writes == old(writes)
      ensures var request := NewStyleRequest(url, systemId, styleFormat, stylePath, extension);
              && requests == old(requests) + [request]
              && r == (match Send(server, request) case Err(e) => Err(e) case Ok(retval) => Subscript(retval, "message"))
    {
      var request := NewStyleRequest(url, systemId, styleFormat, stylePath, extension);
      requests := requests + [request];
      var retval := Send(server, request);
      if retval.Err? {
        return Err(retval.error);
      }
      return Subscript(retval.value, "message");
    }

    /** `add_mapping(source, target, path)`: one upload; the reply is tagged
        with both system ids in place, as `mappings` does. */
    method AddMapping(server: Server, source: string, target: string, mappingsPath: string) returns (r: Result<MappingGroup>)
      requires Valid()
      modifies this
      ensures Valid() && registry == old(registry) && writes == old(writes)
      ensures var request := NewMappingRequest(url, source, target, mappingsPath);
              && requests == old(requests) + [request]
              && r == (match Send(server, request)
                       case Err(e) => Err(e)
                       case Ok(retval) =>
                         match Tag(Doc(retval), source, target)
                         case Err(e) => Err(e)
                         case Ok(tagged) => Ok(MappingGroup(tagged, validate)))
    {
      var request := NewMappingRequest(url, source, target, mappingsPath);
      requests := requests + [request];
      var retval := Send(server, request);
      if retval.Err? {
        return Err(retval.error);
      }
      if !retval.value.JObj? {
        return Err(TypeError);
      }
      var data := retval.value.fields;
      data := data[SourceKey := JStr(source)];
      data := data[TargetKey := JStr(target)];
      return Ok(MappingGroup(data, validate));
    }

    /** `repr(client)`: `lccs("{url}")`, from which the URL can be read back. */
    function Repr(): (r: string)
      ensures |r| == |url| + 8
      ensures r[..6] == "lccs(\"" && r[6..|r| - 2] == url && r[|r| - 2..] == "\")"
    {
      "lccs(\"" + url + "\")"
    }

    /** `str(client)`: `<LCCS [{url}]>`, from which the URL can be read back. */
    function Str(): (r: string)
      ensures |r| == |url| + 9
      ensures r[..7] == "<LCCS [" && r[7..|r| - 2] == url && r[|r| - 2..] == "]>"
    {
      "<LCCS [" + url + "]>"
    }
  }
}
