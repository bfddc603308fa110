/** Clients at work: the registry's hit and miss rules over several calls, and
    concrete servers answering the collection, a mapping and a style download. */
module Scenarios {
  import opened Values
  import opened Http
  import Utils
  import CS = ClassSystem
  import opened Lccs

  /** Asking twice for the same system: once the first call has succeeded, the
      second returns the very same view, and at most one GET is ever sent. */
  method LookupTwice(client: LCCS, first: Server, second: Server, systemId: string)
    returns (a: Result<CS.ClassificationSystem>, b: Result<CS.ClassificationSystem>)
    requires client.Valid()
    modifies client
    ensures client.Valid()
    ensures a.Ok? ==> b == a
    ensures a.Ok? ==> |client.requests| <= |old(client.requests)| + 1
  {
    a := client.ClassificationSystem(first, systemId);
    b := client.ClassificationSystem(second, systemId);
  }

  /** A registry filled by one lookup is not empty, so the listing that follows
      answers with that id alone and fetches nothing. */
  method LookupThenList(client: LCCS, server: Server, listing: Server, systemId: string)
    returns (found: Result<CS.ClassificationSystem>, names: Result<seq<Json>>)
    requires client.Valid() && client.registry == EmptyRegistry
    modifies client
    ensures found.Ok? ==> names == Ok([JStr(systemId)])
    ensures found.Ok? ==> client.requests == old(client.requests) + [GetRequest(SystemUrl(client.url, systemId), None)]
  {
    found := client.ClassificationSystem(server, systemId);
    names := client.ClassificationSystems(listing);
  }

  const Base: string := "http://lccs"

  /** Header names as the transport sees them: lower case. */
  const JsonHeaders: map<string, string> := map["content-type" := "application/json"]

  const TerraClass: Json := JObj(map["id" := JNum(1.0), "name" := JStr("TerraClass_AMZ"), "version" := JStr("1.0"),
                                     "authority_name" := JStr("INPE"), "description" := JStr("..."), "links" := JArr([])])

  /** A server that knows the collection of classification systems and no other resource. */
  function CollectionServer(): Server {
    (request: Request) =>
      if request == GetRequest(Base + "/classification_systems", None) then
        Delivered(JsonHeaders, [], Parsed(JObj(map["classification_systems" := JArr([TerraClass])])))
      else Unreachable("connection refused")
  }

  lemma JsonContentType()
    ensures Utils.ContentType(JsonHeaders) == "application/json"
    ensures Utils.IsJsonType(Utils.ContentType(JsonHeaders)) && !Contains(Utils.ContentType(JsonHeaders), Utils.OctetStream)
  {
    assert JsonHeaders["content-type"] == "application/json";
    assert Lower("application/json") == "application/json";
  }

  const TerraView: CS.ClassificationSystem := CS.ClassificationSystem(TerraClass.fields, false)

  lemma CollectionFetched()
    ensures Utils.Get(CollectionServer(), SystemsUrl(Base), None) ==
            Ok(Doc(JObj(map["classification_systems" := JArr([TerraClass])])))
  {
    JsonContentType();
  }

  lemma CollectionLoaded()
    ensures Load(EmptyRegistry, Utils.Get(CollectionServer(), SystemsUrl(Base), None), false) ==
            Loaded(Registry([JStr("TerraClass_AMZ")], map[JStr("TerraClass_AMZ") := TerraView]), Ok([JStr("TerraClass_AMZ")]))
  {
    CollectionFetched();
    assert Entry(TerraClass, false) == Ok((JStr("TerraClass_AMZ"), TerraView));
    assert [TerraClass][..0] == [];
    assert Fill(EmptyRegistry, [TerraClass], false) ==
           Filled(Registry([JStr("TerraClass_AMZ")], map[JStr("TerraClass_AMZ") := TerraView]), None);
  }

  lemma TerraViewFields()
    ensures TerraView.Name() == Ok(JStr("TerraClass_AMZ")) && TerraView.AuthorityName() == Ok(JStr("INPE"))
  {
    assert TerraView.fields["name"] == JStr("TerraClass_AMZ");
    assert TerraView.fields["authority_name"] == JStr("INPE");
  }

  /** With one system on the server, the listing is its name, and opening it by
      that name answers from the registry: one GET in all. */
  method ListThenOpen() returns (names: Result<seq<Json>>, system: Result<CS.ClassificationSystem>, client: LCCS)
    ensures names == Ok([JStr("TerraClass_AMZ")])
    ensures system.Ok? && system.value.Name() == Ok(JStr("TerraClass_AMZ"))
    ensures system.value.AuthorityName() == Ok(JStr("INPE"))
    ensures client.requests == [GetRequest(Base + "/classification_systems", None)]
  {
    TrimUrlDropsOneSlash(Base);
    client := new LCCS(Base + "/", false);
    assert client.url == Base;
    CollectionLoaded();
    names := client.ClassificationSystems(CollectionServer());
    assert client.registry == Registry([JStr("TerraClass_AMZ")], map[JStr("TerraClass_AMZ") := TerraView]);
    system := client.ClassificationSystem(CollectionServer(), "TerraClass_AMZ");
    assert system == Ok(TerraView);
    TerraViewFields();
  }

  const Mapping: Json := JObj(map["source_class" := JStr("X"), "target_class" := JStr("Y")])

  function MappingServer(): Server {
    (request: Request) =>
      if request == GetRequest(Base + "/mappings/A/B", None) then
        Delivered(JsonHeaders, [], Parsed(JObj(map["mappings" := JArr([Mapping])])))
      else Unreachable("connection refused")
  }

  lemma MappingFetched()
    ensures Utils.Get(MappingServer(), MappingUrl(Base, "A", "B"), None) == Ok(Doc(JObj(map["mappings" := JArr([Mapping])])))
  {
    assert MappingUrl(Base, "A", "B") == Base + "/mappings/A/B";
    JsonContentType();
  }

  /** The mapping group between `A` and `B` names both systems and keeps the
      server's one mapping entry as it was. */
  method MappingBetween() returns (group: Result<MappingGroup>)
    ensures group.Ok? && SourceKey in group.value.data && TargetKey in group.value.data && "mappings" in group.value.data
    ensures group.value.data[SourceKey] == JStr("A") && group.value.data[TargetKey] == JStr("B")
    ensures group.value.data["mappings"] == JArr([Mapping])
  {
    var client := new LCCS(Base, false);
    assert client.url == Base;
    MappingFetched();
    group := client.Mappings(MappingServer(), "A", "B");
  }

  const StyleHeaders: map<string, string> :=
    map["content-type" := "application/octet-stream", "content-disposition" := "filename=style.sld"]

  const StyleBytes: seq<byte> := [60, 63, 120]

  function StyleServer(): Server {
    (request: Request) =>
      if request == GetRequest(Base + "/classification_system/tc/styles/sld", None) then
        Delivered(StyleHeaders, StyleBytes, Unparsable("Expecting value"))
      else Unreachable("connection refused")
  }

  lemma StyleContentType()
    ensures Utils.ContentType(StyleHeaders) == Utils.OctetStream
  {
    var key := "content-disposition";
    assert key != "content-type" by { assert key[8] != "content-type"[8]; }
    assert StyleHeaders["content-type"] == Utils.OctetStream;
    assert Lower(Utils.OctetStream) == Utils.OctetStream;
  }

  lemma StyleLine()
    ensures Utils.LineOf("style.sld") == "style.sld"
  {
    var line := Utils.LineOf("style.sld");
    assert |line| == 9;
  }

  lemma StyleName()
    ensures Utils.DownloadName(StyleHeaders) == Some("style.sld")
  {
    var key := "content-disposition";
    assert key != "content-type" by { assert key[8] != "content-type"[8]; }
    var disposition := StyleHeaders[key];
    assert disposition == "filename=style.sld";
    assert Utils.FileNameMatchAt(disposition, 0);
    assert disposition[9..] == "style.sld";
    StyleLine();
  }

  lemma StyleReply()
    ensures StyleServer()(GetRequest(StyleUrl(Base, "tc", "sld"), None)) ==
            Delivered(StyleHeaders, StyleBytes, Unparsable("Expecting value"))
  {
    assert StyleUrl(Base, "tc", "sld") == Base + "/classification_system/tc/styles/sld";
  }

  lemma StyleDispatched(url: string)
    ensures Utils.Dispatch(url, StyleHeaders, StyleBytes, Unparsable("Expecting value")) == Ok(File("style.sld", StyleBytes))
  {
    StyleContentType();
    assert OccursAt(Utils.OctetStream, Utils.OctetStream, 0);
    StyleName();
  }

  lemma StyleFetched()
    ensures Utils.Get(StyleServer(), StyleUrl(Base, "tc", "sld"), None) == Ok(File("style.sld", StyleBytes))
  {
    StyleReply();
    StyleDispatched(StyleUrl(Base, "tc", "sld"));
  }

  lemma StyleSaved()
    ensures StyleDownload(Utils.Get(StyleServer(), StyleUrl(Base, "tc", "sld"), None), "tc", Some("styles/")) ==
            Ok(FileWrite("styles/style.sld", StyleBytes))
  {
    var fetched := Utils.Get(StyleServer(), StyleUrl(Base, "tc", "sld"), None);
    StyleFetched();
    assert fetched == Ok(File("style.sld", StyleBytes));
    StylePath();
  }

  lemma StylePath()
    ensures FullPath(Some("styles/"), "style.sld") == "styles/style.sld"
  {
    var path := "styles/" + "style.sld";
    assert |path| == 16;
    assert forall i :: 0 <= i < 16 ==> path[i] == "styles/style.sld"[i];
  }

  /** A style download is written under the name its `Content-Disposition`
      gives, below the directory asked for, with exactly the server's bytes. */
  method DownloadStyle() returns (written: Result<nat>, client: LCCS)
    ensures written == Ok(|StyleBytes|)
    ensures client.writes == [FileWrite("styles/style.sld", StyleBytes)]
  {
    client := new LCCS(Base, false);
    assert client.url == Base;
    StyleSaved();
    written := client.GetStyles(StyleServer(), "tc", "sld", Some("styles/"));
  }
}
