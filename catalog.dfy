/** Parks as every list screen sees them, and the choices made from the park
    list: the key of a park (`id ?? _id`), the ids a fan-out requests, the
    park shown in the banner and the default selection after loading. */
module Catalog {
  import opened Base
  import opened Http

  /** `ParqueDTO`; `mongoId` is the `_id` field. */
  datatype Park = Park(
    id: Option<string>,
    mongoId: Option<string>,
    nome: string,
    localizacao: Option<string>,
    imagem: Option<string>)

  /** `p.id ?? p._id` */
  function ParkKey(p: Park): (k: Option<string>)
    ensures p.id.Some? ==> k == p.id
    ensures p.id.None? ==> k == p.mongoId
  {
    Coalesce(p.id, p.mongoId)
  }

  /** `parques.map((p) => p.id ?? p._id).filter(Boolean)`: the ids of the
      parks that have a non-empty key, in list order. */
  function ParkIds(parks: seq<Park>): (ids: seq<string>)
    ensures |ids| <= |parks|
    ensures forall i :: 0 <= i < |ids| ==> ids[i] != ""
  {
    if parks == [] then []
    else ParkIds(parks[..|parks| - 1]) + (if Truthy(ParkKey(parks[|parks| - 1])) then [ParkKey(parks[|parks| - 1]).value] else [])
  }

  /** The ids of a concatenation are the ids of each part, in order. */
  lemma {:induction false} ParkIdsAppend(a: seq<Park>, b: seq<Park>)
    ensures ParkIds(a + b) == ParkIds(a) + ParkIds(b)
    decreases |b|
  {
    if b == [] {
      assert a + b == a;
    } else {
      assert (a + b)[..|a + b| - 1] == a + b[..|b| - 1];
      ParkIdsAppend(a, b[..|b| - 1]);
    }
  }

  /** A string is requested exactly when it is the non-empty key of some
      park. */
  lemma {:induction false} ParkIdsMembership(parks: seq<Park>, s: string)
    ensures s in ParkIds(parks) <==> s != "" && exists i :: 0 <= i < |parks| && ParkKey(parks[i]) == Some(s)
  {
    if parks != [] {
      var init := parks[..|parks| - 1];
      ParkIdsMembership(init, s);
      if s in ParkIds(parks) && s in ParkIds(init) {
        var i :| 0 <= i < |init| && ParkKey(init[i]) == Some(s);
        assert parks[i] == init[i];
      }
      if s != "" && exists i :: 0 <= i < |parks| && ParkKey(parks[i]) == Some(s) {
        var i :| 0 <= i < |parks| && ParkKey(parks[i]) == Some(s);
        if i < |init| {
          assert init[i] == parks[i];
        }
      }
    }
  }

  /** No park has a usable key: no request is made. */
  lemma NoKeysNoIds(parks: seq<Park>)
    requires forall i :: 0 <= i < |parks| ==> !Truthy(ParkKey(parks[i]))
    ensures ParkIds(parks) == []
  {
    if ParkIds(parks) != [] {
      ParkIdsMembership(parks, ParkIds(parks)[0]);
    }
  }

  predicate KeyIs(p: Park, sel: string) {
    ParkKey(p) == Some(sel)
  }

  /** `parques.findIndex((p) => (p.id ?? p._id) === sel)`, as an option. */
  function FindPark(parks: seq<Park>, sel: string): (r: Option<nat>)
    ensures r.Some? ==> r.value < |parks| && KeyIs(parks[r.value], sel)
    ensures r.Some? ==> forall j :: 0 <= j < r.value ==> !KeyIs(parks[j], sel)
    ensures r.None? ==> forall j :: 0 <= j < |parks| ==> !KeyIs(parks[j], sel)
  {
    if parks == [] then None
    else if KeyIs(parks[0], sel) then Some(0)
    else
      var rest := FindPark(parks[1..], sel);
      if rest.Some? then Some(rest.value + 1) else None
  }

  /** `currentParque` of the admin screens: undefined for no parks, else the
      first park keyed by the selection, else the first park. */
  function CurrentParque(parks: seq<Park>, sel: string): (r: Option<Park>)
    ensures r.None? <==> parks == []
    ensures r.Some? ==> r.value in parks
    ensures r.Some? && !KeyIs(r.value, sel) ==> r.value == parks[0] && forall j :: 0 <= j < |parks| ==> !KeyIs(parks[j], sel)
  {
    if parks == [] then None
    else
      var i := FindPark(parks, sel);
      if i.Some? then Some(parks[i.value]) else Some(parks[0])
  }

  /** When some park carries the selected key, the first such park is
      current. */
  lemma CurrentParqueIsFirstMatch(parks: seq<Park>, sel: string, i: nat)
    requires i < |parks| && KeyIs(parks[i], sel)
    requires forall j :: 0 <= j < i ==> !KeyIs(parks[j], sel)
    ensures CurrentParque(parks, sel) == Some(parks[i])
  {
    var f := FindPark(parks, sel);
    assert f.Some?;
    if f.value < i {
    } else if f.value > i {
    }
  }

  /** `currentParque` of the home and activities screens: an empty
      selection short-cuts to the first park. */
  function CurrentParqueOrFirst(parks: seq<Park>, sel: string): (r: Option<Park>)
    ensures r.None? <==> parks == []
    ensures sel == "" && parks != [] ==> r == Some(parks[0])
  {
    if parks == [] then None
    else if sel == "" then Some(parks[0])
    else CurrentParque(parks, sel)
  }

  /** The two variants agree on every non-empty selection, and on the empty
      one as long as no park before the first has an empty-string key. */
  lemma CurrentParqueVariantsAgree(parks: seq<Park>, sel: string)
    requires sel != "" || parks == [] || KeyIs(parks[0], "") || forall j :: 0 <= j < |parks| ==> !KeyIs(parks[j], "")
    ensures CurrentParqueOrFirst(parks, sel) == CurrentParque(parks, sel)
  {
    if parks != [] && sel == "" && KeyIs(parks[0], "") {
      CurrentParqueIsFirstMatch(parks, "", 0);
    }
  }

  /** Where they differ: a park keyed by the empty string. */
  lemma CurrentParqueVariantsDiffer()
    ensures var a := Park(Some("a"), None, "A", None, None);
            var b := Park(Some(""), None, "B", None, None);
            CurrentParque([a, b], "") == Some(b) && CurrentParqueOrFirst([a, b], "") == Some(a)
  {
    var a := Park(Some("a"), None, "A", None, None);
    var b := Park(Some(""), None, "B", None, None);
    CurrentParqueIsFirstMatch([a, b], "", 1);
  }

  /** `lista[0]?.id ?? lista[0]?._id ?? ""` */
  function FirstParkId(parks: seq<Park>): (r: string)
    ensures parks == [] ==> r == ""
    ensures parks != [] && ParkKey(parks[0]).Some? ==> r == ParkKey(parks[0]).value
    ensures parks != [] && ParkKey(parks[0]).None? ==> r == ""
  {
    if parks == [] then "" else OrEmpty(ParkKey(parks[0]))
  }

  /** `data?.parques ?? []` on success; `[]` when the request fails. */
  function LoadedParks(r: Response<seq<Park>>): (parks: seq<Park>)
    ensures r.Err? ==> parks == []
    ensures r.Ok? ==> parks == r.body
  {
    if r.Ok? then r.body else []
  }

  /** The selection after the admin screens' `fetchParques`:
      `prev || firstId` on success, `prev` on failure. */
  function SelectionAfterLoad(prev: string, r: Response<seq<Park>>): (sel: string)
    ensures prev != "" ==> sel == prev
    ensures prev == "" && r.Ok? ==> sel == FirstParkId(r.body)
    ensures r.Err? ==> sel == prev
  {
    if r.Err? || prev != "" then prev else FirstParkId(r.body)
  }

  /** After a successful load with no previous selection, the selected park
      is the one the banner shows. */
  lemma LoadedSelectionIsCurrent(r: Response<seq<Park>>)
    requires r.Ok? && r.body != [] && ParkKey(r.body[0]).Some?
    ensures CurrentParque(LoadedParks(r), SelectionAfterLoad("", r)) == Some(r.body[0])
  {
    CurrentParqueIsFirstMatch(r.body, SelectionAfterLoad("", r), 0);
  }

  /** Where the home and activities screens persist their park filter. */
  const ParkFilterKey := "@parqueFiltro"

  /** The park filter restored at start-up: the stored value when there is
      one, else the current selection. */
  function RestoredSelection(entries: map<string, string>, current: string): (sel: string)
    ensures ParkFilterKey in entries ==> sel == entries[ParkFilterKey]
    ensures ParkFilterKey !in entries ==> sel == current
  {
    if ParkFilterKey in entries then entries[ParkFilterKey] else current
  }

  /** A selected park survives a restart. */
  lemma SelectionPersists(entries: map<string, string>, id: string, current: string)
    ensures RestoredSelection(entries[ParkFilterKey := id], current) == id
  {
  }
}
