/**
 * The backend manifest patch: `package.json` is parsed into a JSON value,
 * `main` is set, three entries of `scripts` are set, and the value is written
 * back. JSON values are modelled as a datatype; object members as a map, so
 * member order and the text layout of the file are not part of the model.
 */
module Manifest {
  import opened Wrappers

  datatype Json =
    | JNull
    | JBool(b: bool)
    | JNumber(literal: string)
    | JString(s: string)
    | JArray(items: seq<Json>)
    | JObject(members: map<string, Json>)

  const EntryPoint := "dist/server.js"
  const WatchScript := "tsc --watch"
  const StartScript := "tsc && node dist/server.js"
  const DevScript := "tsc && nodemon dist/server.js"

  /**
   * The TypeError the patch throws in a strict-mode module: assigning `main` to
   * null or a primitive, or assigning into `scripts` when it is missing, null
   * or a primitive.
   */
  datatype PatchError = CannotSetMain | CannotSetScripts

  /** True when `scripts` can take the three assignments (an object, or an array that silently keeps them off the JSON text). */
  predicate HasScriptsContainer(data: Json) {
    && data.JObject? && "scripts" in data.members
    && (data.members["scripts"].JObject? || data.members["scripts"].JArray?)
  }

  /**
   * `data["main"] = …; data["scripts"]["watch"|"start"|"dev"] = …` followed by
   * `JSON.stringify`. An array `scripts` takes the assignments as non-index
   * properties, which serialisation drops, so it comes back unchanged.
   */
  function Patch(data: Json): (r: Result<Json, PatchError>)
    ensures r.Success? <==> HasScriptsContainer(data)
    ensures r.Failure? ==> r.error == (if data.JObject? || data.JArray? then CannotSetScripts else CannotSetMain)
  {
    match data
    case JObject(m) =>
      var withMain := m["main" := JString(EntryPoint)];
      if "scripts" !in m then Failure(CannotSetScripts)
      else
        match m["scripts"] {
          case JObject(scripts) =>
            var patched := scripts["watch" := JString(WatchScript)]["start" := JString(StartScript)]["dev" := JString(DevScript)];
            Success(JObject(withMain["scripts" := JObject(patched)]))
          case JArray(_) => Success(JObject(withMain))
          case _ => Failure(CannotSetScripts)
        }
    case JArray(_) => Failure(CannotSetScripts)
    case _ => Failure(CannotSetMain)
  }

  /** After a successful patch `main` is the compiled entry point and an object `scripts` holds the three run modes. */
  lemma PatchSetsEntryAndScripts(data: Json)
    requires Patch(data).Success?
    ensures var v := Patch(data).value;
      && v.JObject? && "main" in v.members && v.members["main"] == JString(EntryPoint)
      && "scripts" in v.members
      && (data.members["scripts"].JObject? ==>
            && v.members["scripts"].JObject?
            && var s := v.members["scripts"].members;
            && "watch" in s && s["watch"] == JString(WatchScript)
            && "start" in s && s["start"] == JString(StartScript)
            && "dev" in s && s["dev"] == JString(DevScript))
  {
  }

  /**
   * Nothing else changes: the top level gains at most `main`, every other member
   * keeps its value, and `scripts` gains at most the three run modes, keeping
   * every other entry.
   */
  lemma PatchChangesNothingElse(data: Json)
    requires Patch(data).Success?
    ensures var v := Patch(data).value;
      && v.members.Keys == data.members.Keys + {"main"}
      && (forall k :: k in data.members && k != "main" && k != "scripts" ==> v.members[k] == data.members[k])
      && (data.members["scripts"].JArray? ==> v.members["scripts"] == data.members["scripts"])
      && (data.members["scripts"].JObject? ==>
            var before := data.members["scripts"].members;
            var after := v.members["scripts"].members;
            && after.Keys == before.Keys + {"watch", "start", "dev"}
            && forall k :: k in before && k !in {"watch", "start", "dev"} ==> after[k] == before[k])
  {
  }

  /** Patching a patched manifest gives it back unchanged: the patch only assigns constants. */
  lemma PatchIdempotent(data: Json)
    requires Patch(data).Success?
    ensures Patch(Patch(data).value) == Patch(data)
  {
    var v := Patch(data).value;
    assert v.members["main" := JString(EntryPoint)] == v.members;
    if data.members["scripts"].JObject? {
      var s := v.members["scripts"].members;
      assert s["watch" := JString(WatchScript)]["start" := JString(StartScript)]["dev" := JString(DevScript)] == s;
      assert v.members["main" := JString(EntryPoint)]["scripts" := JObject(s)] == v.members;
    }
  }
}
