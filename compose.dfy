/** The service table of a docker-compose file (interface/src/utils/composemanager.py): the
    loaded document, its `services` dict changed in place by add, remove and update, and
    the file the document is saved back to after each change. */
module Compose {
  import opened Wrappers
  import opened YamlDoc

  /** What a compose operation can raise: an exception while reaching or changing the
      `services` dict, the "not found in compose file" exception, or a failed save. */
  datatype ComposeError = Malformed(error: PyError) | NotFound(name: string) | SaveFailed

  /** How writing the file goes: written in full, the file could not be opened (it keeps
      what it held), or `yaml.dump` raised after the file was opened for writing (it no
      longer holds a document). */
  datatype SaveResult = Written | OpenFailed | DumpFailed

  /** `compose_data['services']` as a dict, or the exception using it as one raises: a
      document that is not a dict, or a `services` entry that is not a dict, raises
      TypeError; a dict without `services` raises KeyError. */
  function ServicesOf(doc: Yaml): (r: Result<map<string, Yaml>, PyError>)
    ensures r.Ok? <==> doc.YMap? && "services" in doc.fields && doc.fields["services"].YMap?
    ensures r.Ok? ==> doc.fields["services"] == YMap(r.value)
    ensures doc.YMap? && "services" !in doc.fields ==> r == Err(KeyError)
  {
    match doc
    case YMap(f) =>
      if "services" !in f then Err(KeyError)
      else if f["services"].YMap? then Ok(f["services"].fields)
      else Err(TypeError)
    case _ => Err(TypeError)
  }

  /** `ServicesOf` with its exception as a compose error. */
  function Lookup(doc: Yaml): Result<map<string, Yaml>, ComposeError> {
    match ServicesOf(doc)
    case Ok(services) => Ok(services)
    case Err(e) => Err(Malformed(e))
  }

  /** The document with its `services` dict replaced. */
  function WithServices(doc: Yaml, services: map<string, Yaml>): Yaml
    requires doc.YMap?
  {
    YMap(doc.fields["services" := YMap(services)])
  }

  /** The top-level entries other than `services`. */
  function Others(doc: Yaml): map<string, Yaml>
    requires doc.YMap?
  {
    doc.fields - {"services"}
  }

  /** `compose_data['services'][name] = data`: the entry is set, overwriting any earlier
      one; no other service and no other top-level entry changes. */
  function Add(doc: Yaml, name: string, data: Yaml): (r: Result<Yaml, ComposeError>)
    ensures ServicesOf(doc).Err? ==> r == Err(Malformed(ServicesOf(doc).error))
    ensures ServicesOf(doc).Ok? ==>
              r.Ok? && ServicesOf(r.value).Ok?
              && name in ServicesOf(r.value).value && ServicesOf(r.value).value[name] == data
              && (forall k :: k != name ==>
                    (k in ServicesOf(r.value).value <==> k in ServicesOf(doc).value))
              && (forall k :: k != name && k in ServicesOf(doc).value ==>
                    ServicesOf(r.value).value[k] == ServicesOf(doc).value[k])
              && Others(r.value) == Others(doc)
  {
    var services :- Lookup(doc);
    Ok(WithServices(doc, services[name := data]))
  }

  /** `del compose_data['services'][name]` when the name is there; the not-found
      exception, with nothing changed, when it is not. */
  function Remove(doc: Yaml, name: string): (r: Result<Yaml, ComposeError>)
    ensures ServicesOf(doc).Err? ==> r == Err(Malformed(ServicesOf(doc).error))
    ensures ServicesOf(doc).Ok? && name !in ServicesOf(doc).value ==> r == Err(NotFound(name))
    ensures ServicesOf(doc).Ok? && name in ServicesOf(doc).value ==>
              r.Ok? && ServicesOf(r.value).Ok?
              && ServicesOf(r.value).value.Keys == ServicesOf(doc).value.Keys - {name}
              && (forall k :: k in ServicesOf(r.value).value ==>
                    ServicesOf(r.value).value[k] == ServicesOf(doc).value[k])
              && Others(r.value) == Others(doc)
  {
    var services :- Lookup(doc);
    if name in services then Ok(WithServices(doc, services - {name}))
    else Err(NotFound(name))
  }

  /** `compose_data['services'][name].update(changes)`: the service's own dict takes the new
      fields (new values win, other fields stay); no other service changes. A service
      that is not a dict has no `update` (AttributeError). */
  function Update(doc: Yaml, name: string, changes: map<string, Yaml>): (r: Result<Yaml, ComposeError>)
    ensures ServicesOf(doc).Err? ==> r == Err(Malformed(ServicesOf(doc).error))
    ensures ServicesOf(doc).Ok? && name !in ServicesOf(doc).value ==> r == Err(NotFound(name))
    ensures ServicesOf(doc).Ok? && name in ServicesOf(doc).value && !ServicesOf(doc).value[name].YMap? ==>
              r == Err(Malformed(AttributeError))
    ensures ServicesOf(doc).Ok? && name in ServicesOf(doc).value && ServicesOf(doc).value[name].YMap? ==>
              var before := ServicesOf(doc).value;
              r.Ok? && ServicesOf(r.value).Ok?
              && ServicesOf(r.value).value.Keys == before.Keys
              && ServicesOf(r.value).value[name].YMap?
              && (forall f :: f in changes ==>
                    (f in ServicesOf(r.value).value[name].fields
                     && ServicesOf(r.value).value[name].fields[f] == changes[f]))
              && (forall f :: f !in changes && f in before[name].fields ==>
                    (f in ServicesOf(r.value).value[name].fields
                     && ServicesOf(r.value).value[name].fields[f] == before[name].fields[f]))
              && ServicesOf(r.value).value[name].fields.Keys == before[name].fields.Keys + changes.Keys
              && (forall k :: k in before && k != name ==> ServicesOf(r.value).value[k] == before[k])
              && Others(r.value) == Others(doc)
  {
    var services :- Lookup(doc);
    if name !in services then Err(NotFound(name))
    else if !services[name].YMap? then Err(Malformed(AttributeError))
    else Ok(WithServices(doc, services[name := YMap(services[name].fields + changes)]))
  }

  /** Replacing the services twice keeps only the second replacement. */
  lemma WithServicesTwice(doc: Yaml, m1: map<string, Yaml>, m2: map<string, Yaml>)
    requires doc.YMap?
    ensures WithServices(WithServices(doc, m1), m2) == WithServices(doc, m2)
  {
    assert doc.fields["services" := YMap(m1)]["services" := YMap(m2)] == doc.fields["services" := YMap(m2)];
  }

  /** Putting back the services a document has gives back the document. */
  lemma WithOwnServices(doc: Yaml)
    requires ServicesOf(doc).Ok?
    ensures WithServices(doc, ServicesOf(doc).value) == doc
  {
    assert doc.fields["services" := YMap(ServicesOf(doc).value)] == doc.fields;
  }

  /** Removing a service just added under a new name gives back the document. */
  lemma RemoveAfterAdd(doc: Yaml, name: string, data: Yaml)
    requires ServicesOf(doc).Ok? && name !in ServicesOf(doc).value
    ensures Add(doc, name, data).Ok? && Remove(Add(doc, name, data).value, name) == Ok(doc)
  {
    var services := ServicesOf(doc).value;
    var added := WithServices(doc, services[name := data]);
    assert Add(doc, name, data) == Ok(added);
    assert services[name := data] - {name} == services;
    assert Remove(added, name) == Ok(WithServices(added, services));
    WithServicesTwice(doc, services[name := data], services);
    WithOwnServices(doc);
  }

  /** Adding back a removed service, with its old record, gives back the document. */
  lemma AddAfterRemove(doc: Yaml, name: string)
    requires ServicesOf(doc).Ok? && name in ServicesOf(doc).value
    ensures Remove(doc, name).Ok?
    ensures Add(Remove(doc, name).value, name, ServicesOf(doc).value[name]) == Ok(doc)
  {
    var services := ServicesOf(doc).value;
    var removed := WithServices(doc, services - {name});
    assert Remove(doc, name) == Ok(removed);
    assert (services - {name})[name := services[name]] == services;
    assert Add(removed, name, services[name]) == Ok(WithServices(removed, services));
    WithServicesTwice(doc, services - {name}, services);
    WithOwnServices(doc);
  }

  /** Adding the same record twice is adding it once. */
  lemma AddIdempotent(doc: Yaml, name: string, data: Yaml)
    requires ServicesOf(doc).Ok?
    ensures Add(doc, name, data).Ok?
    ensures Add(Add(doc, name, data).value, name, data) == Add(doc, name, data)
  {
    var services := ServicesOf(doc).value;
    var added := WithServices(doc, services[name := data]);
    assert Add(doc, name, data) == Ok(added);
    assert services[name := data][name := data] == services[name := data];
    assert Add(added, name, data) == Ok(WithServices(added, services[name := data]));
    WithServicesTwice(doc, services[name := data], services[name := data]);
  }

  /** Updating a dict service with no fields changes nothing. */
  lemma UpdateWithNothing(doc: Yaml, name: string)
    requires ServicesOf(doc).Ok? && name in ServicesOf(doc).value && ServicesOf(doc).value[name].YMap?
    ensures Update(doc, name, map[]) == Ok(doc)
  {
    var services := ServicesOf(doc).value;
    assert services[name].fields + map[] == services[name].fields;
    assert services[name := YMap(services[name].fields)] == services;
    assert doc.fields["services" := YMap(services)] == doc.fields;
  }

  /** `DockerComposeManager`: the document in memory and what the compose file holds
      (None once a failed dump has left it without a document). */
  class DockerComposeManager {
    var composeData: Yaml
    var file: Option<Yaml>

    /** The manager over a file that loaded as `loaded`. */
    constructor(loaded: Yaml)
      ensures composeData == loaded && file == Some(loaded)
    {
      composeData := loaded;
      file := Some(loaded);
    }

    /** The file holds the document in memory. */
    predicate Saved()
      reads this
    {
      file == Some(composeData)
    }

    /** `save_compose_file`: write the document; any failure raises. */
    method SaveComposeFile(save: SaveResult) returns (r: Result<(), ComposeError>)
      modifies this
      ensures composeData == old(composeData)
      ensures r.Ok? <==> save == Written
      ensures r.Err? ==> r.error == SaveFailed
      ensures save == Written ==> Saved()
      ensures save == OpenFailed ==> file == old(file)
      ensures save == DumpFailed ==> file == None
    {
      match save
      case Written =>
        file := Some(composeData);
        r := Ok(());
      case OpenFailed =>
        r := Err(SaveFailed);
      case DumpFailed =>
        file := None;
        r := Err(SaveFailed);
    }

    /** `add_service(name, data)`: set the entry, then save. */
    method AddService(name: string, data: Yaml, save: SaveResult) returns (r: Result<(), ComposeError>)
      modifies this
      ensures var a := Add(old(composeData), name, data);
              (a.Err? ==> r == Err(a.error) && composeData == old(composeData) && file == old(file))
              && (a.Ok? ==> composeData == a.value && (r.Ok? <==> save == Written) && (r.Ok? ==> Saved()))
              && (a.Ok? && save == OpenFailed ==> file == old(file))
              && (a.Ok? && save == DumpFailed ==> file == None)
    {
      var a := Add(composeData, name, data);
      if a.Err? {
        return Err(a.error);
      }
      composeData := a.value;
      r := SaveComposeFile(save);
    }

    /** `remove_service(name)`: delete the entry and save, or raise without changing
        anything when there is none. */
    method RemoveService(name: string, save: SaveResult) returns (r: Result<(), ComposeError>)
      modifies this
      ensures var d := Remove(old(composeData), name);
              (d.Err? ==> r == Err(d.error) && composeData == old(composeData) && file == old(file))
              && (d.Ok? ==> composeData == d.value && (r.Ok? <==> save == Written) && (r.Ok? ==> Saved()))
              && (d.Ok? && save == OpenFailed ==> file == old(file))
              && (d.Ok? && save == DumpFailed ==> file == None)
    {
      var d := Remove(composeData, name);
      if d.Err? {
        return Err(d.error);
      }
      composeData := d.value;
      r := SaveComposeFile(save);
    }

    /** `update_service(name, changes)`: merge the new fields into the service and save, or
        raise without changing anything when there is no such service. */
    method UpdateService(name: string, changes: map<string, Yaml>, save: SaveResult) returns (r: Result<(), ComposeError>)
      modifies this
      ensures var u := Update(old(composeData), name, changes);
              (u.Err? ==> r == Err(u.error) && composeData == old(composeData) && file == old(file))
              && (u.Ok? ==> composeData == u.value && (r.Ok? <==> save == Written) && (r.Ok? ==> Saved()))
              && (u.Ok? && save == OpenFailed ==> file == old(file))
              && (u.Ok? && save == DumpFailed ==> file == None)
    {
      var u := Update(composeData, name, changes);
      if u.Err? {
        return Err(u.error);
      }
      composeData := u.value;
      r := SaveComposeFile(save);
    }
  }
}
