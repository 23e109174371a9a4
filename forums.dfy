/**
 * controllers/forumsController.js: `getCourseForums`, which fetches the
 * forums of a course and its contents, builds a map from forum instance to
 * the name of the section it sits in (two nested `forEach` loops), and
 * returns every forum with a `sectionName` added; and the parameter map of
 * `replyToForum`.
 */
module Forums {
  import opened Wrappers
  import opened JsValue
  import opened Remote
  import opened MoodleHelpers

  const ForumsByCourses: string := "mod_forum_get_forums_by_courses"
  const GetContents: string := "core_course_get_contents"
  const AddDiscussionPost: string := "mod_forum_add_discussion_post"
  const NoSection: string := "Sin sección"

  /** `sectionMap`: instance id (as a property key) to section name. */
  type SectionMap = map<string, string>

  /** The name a section number gets: section 0 (by strict equality) is
      "General", any other value `v` is "Unidad <v>". */
  function SectionName(number: Value): (name: string)
    ensures name != ""
    ensures name == "General" <==> number == Num(0)
  {
    if number == Num(0) then "General"
    else
      assert ("Unidad " + ToStr(number))[0] == 'U';
      "Unidad " + ToStr(number)
  }

  // ----- the section map, as a head-first fold -----

  predicate IsForumModule(mod: Value) {
    Field(mod, "modname") == Str("forum")
  }

  /** The inner `forEach` over `section.modules`. */
  function AddModules(m: SectionMap, name: string, mods: seq<Value>): Result<SectionMap, JsError>
    decreases |mods|
  {
    if |mods| == 0 then Ok(m)
    else if Nullish(mods[0]) then Err(TypeErrorReading(mods[0], "modname"))
    else
      var m' := if IsForumModule(mods[0]) then m[ToStr(Field(mods[0], "instance")) := name] else m;
      AddModules(m', name, mods[1..])
  }

  /** One turn of the outer `forEach`. */
  function AddSection(m: SectionMap, section: Value): Result<SectionMap, JsError> {
    if Nullish(section) then Err(TypeErrorReading(section, "section"))
    else
      var mods := Field(section, "modules");
      if Nullish(mods) then Err(TypeErrorReading(mods, "forEach"))
      else if !mods.Arr? then Err(NotAFunction("section.modules.forEach"))
      else AddModules(m, SectionName(Field(section, "section")), mods.items)
  }

  function AddSections(m: SectionMap, sections: seq<Value>): Result<SectionMap, JsError>
    decreases |sections|
  {
    if |sections| == 0 then Ok(m)
    else
      match AddSection(m, sections[0])
      case Err(e) => Err(e)
      case Ok(m') => AddSections(m', sections[1..])
  }

  /** The section map built from the contents reply `sections`, or the
      TypeError the loops throw on it. */
  function SectionMapOf(sections: Value): Result<SectionMap, JsError> {
    if Nullish(sections) then Err(TypeErrorReading(sections, "forEach"))
    else if !sections.Arr? then Err(NotAFunction("sections.forEach"))
    else AddSections(map[], sections.items)
  }

  /** The nested loops, run in place on a local map. */
  method BuildSectionMap(sections: Value) returns (r: Result<SectionMap, JsError>)
    ensures r == SectionMapOf(sections)
  {
    if Nullish(sections) {
      return Err(TypeErrorReading(sections, "forEach"));
    }
    if !sections.Arr? {
      return Err(NotAFunction("sections.forEach"));
    }
    var items := sections.items;
    var m: SectionMap := map[];
    var i := 0;
    while i < |items|
      invariant 0 <= i <= |items|
      invariant AddSections(m, items[i..]) == SectionMapOf(sections)
    {
      var section := items[i];
      assert items[i..][1..] == items[i + 1..];
      if Nullish(section) {
        return Err(TypeErrorReading(section, "section"));
      }
      var name := SectionName(Field(section, "section"));
      var mods := Field(section, "modules");
      if Nullish(mods) {
        return Err(TypeErrorReading(mods, "forEach"));
      }
      if !mods.Arr? {
        return Err(NotAFunction("section.modules.forEach"));
      }
      ghost var m0 := m;
      var j := 0;
      while j < |mods.items|
        invariant 0 <= j <= |mods.items|
        invariant AddModules(m, name, mods.items[j..]) == AddSection(m0, section)
      {
        var mod := mods.items[j];
        assert mods.items[j..][1..] == mods.items[j + 1..];
        if Nullish(mod) {
          return Err(TypeErrorReading(mod, "modname"));
        }
        if IsForumModule(mod) {
          m := m[ToStr(Field(mod, "instance")) := name];
        }
        j := j + 1;
      }
      i := i + 1;
    }
    return Ok(m);
  }

  // ----- what the map holds -----

  /** The map that writing the pairs `es` in order into `m` produces. */
  function Overlay(m: SectionMap, es: seq<(string, string)>): SectionMap
    decreases |es|
  {
    if |es| == 0 then m else Overlay(m[es[0].0 := es[0].1], es[1..])
  }

  lemma {:induction false} OverlayAppend(m: SectionMap, a: seq<(string, string)>, b: seq<(string, string)>)
    ensures Overlay(m, a + b) == Overlay(Overlay(m, a), b)
    decreases |a|
  {
    if |a| == 0 {
      assert a + b == b;
    } else {
      assert (a + b)[1..] == a[1..] + b;
      OverlayAppend(m[a[0].0 := a[0].1], a[1..], b);
    }
  }

  /** After the writes, a key is present iff it was before or some pair wrote
      it; the last pair that wrote it decides its value. */
  lemma {:induction false} OverlayLastWins(m: SectionMap, es: seq<(string, string)>, k: string)
    ensures k in Overlay(m, es) <==> k in m || exists i :: 0 <= i < |es| && es[i].0 == k
    ensures (forall i :: 0 <= i < |es| ==> es[i].0 != k) && k in m ==> Overlay(m, es)[k] == m[k]
    ensures (exists i :: 0 <= i < |es| && es[i].0 == k) ==>
              exists i :: 0 <= i < |es| && es[i].0 == k && Overlay(m, es)[k] == es[i].1 &&
                          forall j :: i < j < |es| ==> es[j].0 != k
    decreases |es|
  {
    if |es| > 0 {
      var m' := m[es[0].0 := es[0].1];
      var rest := es[1..];
      OverlayLastWins(m', rest, k);
      if exists i :: 0 <= i < |rest| && rest[i].0 == k {
        var i :| 0 <= i < |rest| && rest[i].0 == k && Overlay(m', rest)[k] == rest[i].1 &&
                 forall j :: i < j < |rest| ==> rest[j].0 != k;
        assert es[i + 1] == rest[i];
        forall j | i + 1 < j < |es| ensures es[j].0 != k {
          assert es[j] == rest[j - 1];
        }
      } else if es[0].0 == k {
        forall j | 0 < j < |es| ensures es[j].0 != k {
          assert es[j] == rest[j - 1];
        }
      } else {
        forall i | 0 <= i < |es| ensures es[i].0 != k {
          if i > 0 { assert es[i] == rest[i - 1]; }
        }
      }
    }
  }

  /** The (instance key, section name) pairs the loops write, in order. */
  function ModuleEntries(name: string, mods: seq<Value>): (es: seq<(string, string)>)
    ensures forall i :: 0 <= i < |es| ==> es[i].1 == name
    decreases |mods|
  {
    if |mods| == 0 then []
    else
      (if IsForumModule(mods[0]) then [(ToStr(Field(mods[0], "instance")), name)] else [])
      + ModuleEntries(name, mods[1..])
  }

  /** The pairs one section's inner loop writes, all under its section name. */
  function SectionPairs(section: Value): (es: seq<(string, string)>)
    ensures forall i :: 0 <= i < |es| ==> es[i].1 == SectionName(Field(section, "section"))
  {
    var mods := Field(section, "modules");
    if mods.Arr? then ModuleEntries(SectionName(Field(section, "section")), mods.items) else []
  }

  function SectionEntries(sections: seq<Value>): (es: seq<(string, string)>)
    ensures forall i :: 0 <= i < |es| ==> es[i].1 != ""
    decreases |sections|
  {
    if |sections| == 0 then [] else SectionPairs(sections[0]) + SectionEntries(sections[1..])
  }

  /** Some pair in `es` writes key `k`. */
  predicate WritesKey(es: seq<(string, string)>, k: string) {
    exists i :: 0 <= i < |es| && es[i].0 == k
  }

  /** Some module in `mods` is a forum whose `instance` prints as `k`. */
  predicate HasForumKeyed(mods: seq<Value>, k: string) {
    exists j :: 0 <= j < |mods| && IsForumModule(mods[j]) && ToStr(Field(mods[j], "instance")) == k
  }

  /** Only modules whose `modname` is "forum" give a pair, keyed by their
      `instance`, in both directions. */
  lemma {:induction false} ModuleEntriesAreForums(name: string, mods: seq<Value>, k: string)
    ensures WritesKey(ModuleEntries(name, mods), k) <==> HasForumKeyed(mods, k)
    decreases |mods|
  {
    if |mods| > 0 {
      var rest := ModuleEntries(name, mods[1..]);
      var e0 := if IsForumModule(mods[0]) then [(ToStr(Field(mods[0], "instance")), name)] else [];
      assert ModuleEntries(name, mods) == e0 + rest;
      ModuleEntriesAreForums(name, mods[1..], k);
      WritesKeyAppend(e0, rest, k);
      HasForumKeyedShift(mods, k);
      if e0 != [] {
        assert e0[0].0 == ToStr(Field(mods[0], "instance"));
      }
    }
  }

  lemma WritesKeyAppend(a: seq<(string, string)>, b: seq<(string, string)>, k: string)
    ensures WritesKey(a + b, k) <==> WritesKey(a, k) || WritesKey(b, k)
  {
    if WritesKey(a + b, k) {
      var i :| 0 <= i < |a + b| && (a + b)[i].0 == k;
      if i >= |a| {
        assert b[i - |a|] == (a + b)[i];
      }
    }
    if WritesKey(a, k) {
      var i :| 0 <= i < |a| && a[i].0 == k;
      assert (a + b)[i] == a[i];
    }
    if WritesKey(b, k) {
      var i :| 0 <= i < |b| && b[i].0 == k;
      assert (a + b)[|a| + i] == b[i];
    }
  }

  lemma HasForumKeyedShift(mods: seq<Value>, k: string)
    requires |mods| > 0
    ensures HasForumKeyed(mods, k) <==>
            (IsForumModule(mods[0]) && ToStr(Field(mods[0], "instance")) == k) || HasForumKeyed(mods[1..], k)
  {
    if HasForumKeyed(mods, k) {
      var j :| 0 <= j < |mods| && IsForumModule(mods[j]) && ToStr(Field(mods[j], "instance")) == k;
      if j > 0 {
        assert mods[1..][j - 1] == mods[j];
      }
    }
    if HasForumKeyed(mods[1..], k) {
      var j :| 0 <= j < |mods[1..]| && IsForumModule(mods[1..][j]) && ToStr(Field(mods[1..][j], "instance")) == k;
      assert mods[j + 1] == mods[1..][j];
    }
  }

  /** A section the loops get through: not nullish, its `modules` an array of
      non-nullish modules. */
  predicate WellShapedSection(section: Value) {
    !Nullish(section) && Field(section, "modules").Arr? &&
    forall j :: 0 <= j < |Field(section, "modules").items| ==> !Nullish(Field(section, "modules").items[j])
  }

  predicate WellShapedSections(sections: Value) {
    sections.Arr? && forall i :: 0 <= i < |sections.items| ==> WellShapedSection(sections.items[i])
  }

  lemma {:induction false} AddModulesOverlay(m: SectionMap, name: string, mods: seq<Value>)
    ensures AddModules(m, name, mods).Ok? <==> forall j :: 0 <= j < |mods| ==> !Nullish(mods[j])
    ensures AddModules(m, name, mods).Ok? ==> AddModules(m, name, mods).value == Overlay(m, ModuleEntries(name, mods))
    decreases |mods|
  {
    if |mods| > 0 && !Nullish(mods[0]) {
      var e0 := if IsForumModule(mods[0]) then [(ToStr(Field(mods[0], "instance")), name)] else [];
      var m' := if IsForumModule(mods[0]) then m[ToStr(Field(mods[0], "instance")) := name] else m;
      AddModulesOverlay(m', name, mods[1..]);
      OverlayAppend(m, e0, ModuleEntries(name, mods[1..]));
      assert Overlay(m, e0) == m';
      forall j | 0 < j < |mods| ensures mods[j] == mods[1..][j - 1] { }
    }
  }

  lemma {:induction false} AddSectionsOverlay(m: SectionMap, sections: seq<Value>)
    ensures AddSections(m, sections).Ok? <==> forall i :: 0 <= i < |sections| ==> WellShapedSection(sections[i])
    ensures AddSections(m, sections).Ok? ==> AddSections(m, sections).value == Overlay(m, SectionEntries(sections))
    decreases |sections|
  {
    if |sections| > 0 {
      var s := sections[0];
      var mods := Field(s, "modules");
      if !Nullish(s) && mods.Arr? {
        var name := SectionName(Field(s, "section"));
        AddModulesOverlay(m, name, mods.items);
        if AddModules(m, name, mods.items).Ok? {
          var m' := AddModules(m, name, mods.items).value;
          AddSectionsOverlay(m', sections[1..]);
          OverlayAppend(m, ModuleEntries(name, mods.items), SectionEntries(sections[1..]));
          forall i | 0 < i < |sections| ensures sections[i] == sections[1..][i - 1] { }
        }
      }
    }
  }

  /** The loops finish exactly when every section and module is well shaped. */
  lemma SectionMapSucceedsIff(sections: Value)
    ensures SectionMapOf(sections).Ok? <==> WellShapedSections(sections)
  {
    if sections.Arr? {
      AddSectionsOverlay(map[], sections.items);
    }
  }

  /** Section `section` has a forum module whose `instance` prints as `k`. */
  predicate SectionHasForum(section: Value, k: string) {
    Field(section, "modules").Arr? && HasForumKeyed(Field(section, "modules").items, k)
  }

  lemma SectionPairsAreForums(section: Value, k: string)
    ensures WritesKey(SectionPairs(section), k) <==> SectionHasForum(section, k)
  {
    var mods := Field(section, "modules");
    if mods.Arr? {
      ModuleEntriesAreForums(SectionName(Field(section, "section")), mods.items, k);
    }
  }

  /** Writing the sections' pairs over `m0`: a key no section's forum has keeps
      its old state; otherwise it holds the name of the LAST section with a
      forum module of that instance. */
  lemma {:induction false} SectionOverlayLastWins(m0: SectionMap, secs: seq<Value>, k: string)
    ensures (forall i :: 0 <= i < |secs| ==> !SectionHasForum(secs[i], k)) ==>
              (k in Overlay(m0, SectionEntries(secs)) <==> k in m0) &&
              (k in m0 ==> Overlay(m0, SectionEntries(secs))[k] == m0[k])
    ensures (exists i :: 0 <= i < |secs| && SectionHasForum(secs[i], k)) ==>
              k in Overlay(m0, SectionEntries(secs)) &&
              exists i :: 0 <= i < |secs| && SectionHasForum(secs[i], k) &&
                          Overlay(m0, SectionEntries(secs))[k] == SectionName(Field(secs[i], "section")) &&
                          forall j :: i < j < |secs| ==> !SectionHasForum(secs[j], k)
    decreases |secs|
  {
    if |secs| > 0 {
      var p0 := SectionPairs(secs[0]);
      var rest := secs[1..];
      var m1 := Overlay(m0, p0);
      assert SectionEntries(secs) == p0 + SectionEntries(rest);
      OverlayAppend(m0, p0, SectionEntries(rest));
      SectionOverlayLastWins(m1, rest, k);
      SectionPairsAreForums(secs[0], k);
      OverlayLastWins(m0, p0, k);
      if exists i :: 0 <= i < |rest| && SectionHasForum(rest[i], k) {
        var i :| 0 <= i < |rest| && SectionHasForum(rest[i], k) &&
                 Overlay(m1, SectionEntries(rest))[k] == SectionName(Field(rest[i], "section")) &&
                 forall j :: i < j < |rest| ==> !SectionHasForum(rest[j], k);
        assert secs[i + 1] == rest[i];
        forall j | i + 1 < j < |secs| ensures !SectionHasForum(secs[j], k) {
          assert secs[j] == rest[j - 1];
        }
      } else {
        forall j | 0 < j < |secs| ensures !SectionHasForum(secs[j], k) {
          assert secs[j] == rest[j - 1];
        }
        if SectionHasForum(secs[0], k) {
          var i :| 0 <= i < |p0| && p0[i].0 == k && m1[k] == p0[i].1 &&
                   forall j :: i < j < |p0| ==> p0[j].0 != k;
        }
      }
    }
  }

  /** A key is in the finished map iff some section has a forum module with
      that instance; its name is that of the LAST such section, and never empty. */
  lemma SectionMapLastWins(sections: Value, m: SectionMap, k: string)
    requires SectionMapOf(sections) == Ok(m)
    ensures sections.Arr?
    ensures var secs := sections.items;
            (k in m <==> exists i :: 0 <= i < |secs| && SectionHasForum(secs[i], k)) &&
            (k in m ==>
               m[k] != "" &&
               exists i :: 0 <= i < |secs| && SectionHasForum(secs[i], k) &&
                           m[k] == SectionName(Field(secs[i], "section")) &&
                           forall j :: i < j < |secs| ==> !SectionHasForum(secs[j], k))
  {
    AddSectionsOverlay(map[], sections.items);
    SectionOverlayLastWins(map[], sections.items, k);
  }

  // ----- annotating the forums -----

  /** The own enumerable properties `{...v}` copies: an object's properties,
      an array's or a string's elements under their index keys, none otherwise. */
  function SpreadSource(v: Value): Props {
    match v
    case Obj(props) => props
    case Arr(items) => seq(|items|, i requires 0 <= i < |items| => (NatToDecimal(i), items[i]))
    case Str(s) => seq(|s|, i requires 0 <= i < |s| => (NatToDecimal(i), Str([s[i]])))
    case _ => []
  }

  /** `sectionMap[id] || "Sin sección"` */
  function SectionLabel(m: SectionMap, id: Value): Value {
    var key := ToStr(id);
    Or(if key in m then Str(m[key]) else Undefined, Str(NoSection))
  }

  /** `{ ...forum, sectionName: ... }` for a forum whose `id` can be read. */
  function Annotated(forum: Value, m: SectionMap): (r: Value)
    requires !Nullish(forum)
    ensures r.Obj?
    ensures Lookup(r.props, "sectionName") == SectionLabel(m, Field(forum, "id"))
    ensures forall k :: k != "sectionName" ==> Lookup(r.props, k) == Lookup(SpreadSource(forum), k)
  {
    Obj(SetProp(SpreadSource(forum), "sectionName", SectionLabel(m, Field(forum, "id"))))
  }

  /** `.map(forum => ...)`: stops at the first forum whose `id` cannot be read
      (AnnotateAllStopsAtFirstNull). */
  function AnnotateAll(forums: seq<Value>, m: SectionMap): (r: Result<seq<Value>, JsError>)
    ensures r.Ok? <==> forall i :: 0 <= i < |forums| ==> !Nullish(forums[i])
    ensures r.Ok? ==> |r.value| == |forums| &&
                      forall i :: 0 <= i < |forums| ==> r.value[i] == Annotated(forums[i], m)
    decreases |forums|
  {
    if |forums| == 0 then Ok([])
    else if Nullish(forums[0]) then Err(TypeErrorReading(forums[0], "id"))
    else
      match AnnotateAll(forums[1..], m)
      case Err(e) =>
        assert forall j :: 0 < j < |forums| ==> forums[j] == forums[1..][j - 1];
        Err(e)
      case Ok(rest) =>
        assert forall j :: 0 < j < |forums| ==> forums[j] == forums[1..][j - 1];
        var r := [Annotated(forums[0], m)] + rest;
        assert forall j :: 0 < j < |forums| ==> r[j] == rest[j - 1];
        Ok(r)
  }

  /** The failure is the TypeError for `id` of the first nullish forum. */
  lemma {:induction false} AnnotateAllStopsAtFirstNull(forums: seq<Value>, m: SectionMap)
    ensures AnnotateAll(forums, m).Err? ==>
              exists i :: 0 <= i < |forums| && Nullish(forums[i]) &&
                          AnnotateAll(forums, m).error == TypeErrorReading(forums[i], "id") &&
                          forall j :: 0 <= j < i ==> !Nullish(forums[j])
    decreases |forums|
  {
    if |forums| > 0 && !Nullish(forums[0]) && AnnotateAll(forums, m).Err? {
      var tail := forums[1..];
      AnnotateAllStopsAtFirstNull(tail, m);
      var i :| 0 <= i < |tail| && Nullish(tail[i]) &&
               AnnotateAll(tail, m).error == TypeErrorReading(tail[i], "id") &&
               forall j :: 0 <= j < i ==> !Nullish(tail[j]);
      assert forums[i + 1] == tail[i];
      forall j | 0 <= j < i + 1 ensures !Nullish(forums[j]) {
        if j > 0 { assert forums[j] == tail[j - 1]; }
      }
    }
  }

  /** `(data || []).map(...)`: a falsy reply counts as no forums; a truthy
      reply that is not an array has no `map`. */
  function AnnotateForums(data: Value, m: SectionMap): Result<seq<Value>, JsError> {
    var list := Or(data, Arr([]));
    if !list.Arr? then Err(NotAFunction("(data || []).map")) else AnnotateAll(list.items, m)
  }

  /** A null, absent or otherwise falsy forums reply gives an empty list. */
  lemma FalsyForumDataIsEmpty(data: Value, m: SectionMap)
    requires !Truthy(data)
    ensures AnnotateForums(data, m) == Ok([])
  {
  }

  /** Every forum keeps all of its own fields and order, gains `sectionName`
      last (or has it overwritten in place), and the label is the mapped
      section name, or "Sin sección" when its id is not mapped. */
  lemma AnnotatedForumShape(props: Props, m: SectionMap, k: string)
    requires DistinctKeys(props)
    ensures var r := Annotated(Obj(props), m);
            var key := ToStr(Lookup(props, "id"));
            DistinctKeys(r.props) &&
            |Keys(r.props)| >= |props| && Keys(r.props)[..|props|] == Keys(props) &&
            (k != "sectionName" ==> Field(r, k) == Field(Obj(props), k)) &&
            Field(r, "sectionName") == (if key in m && m[key] != "" then Str(m[key]) else Str(NoSection))
  {
    var lbl := SectionLabel(m, Field(Obj(props), "id"));
    SetPropKeys(props, "sectionName", lbl);
    SetPropDistinct(props, "sectionName", lbl);
    SectionLabelValue(m, Field(Obj(props), "id"));
  }

  /** An empty section name is falsy and falls back like a missing one. */
  lemma SectionLabelValue(m: SectionMap, id: Value)
    ensures var key := ToStr(id);
            SectionLabel(m, id) == if key in m && m[key] != "" then Str(m[key]) else Str(NoSection)
  {
  }

  // ----- getCourseForums -----

  function ForumsParams(courseId: int): Props {
    [("courseids[0]", Num(courseId))]
  }

  function ContentsParams(courseId: int): Props {
    [("courseid", Num(courseId))]
  }

  /** `getCourseForums(req, res)` with `courseId` the parsed route parameter. */
  function GetCourseForumsSpec(remote: Oracle, trace: seq<Call>, authorization: Option<string>,
                               courseId: int): Step<Response>
  {
    var s1 := MoodleCallSpec(remote, trace, authorization, ForumsByCourses, ForumsParams(courseId));
    match s1.out
    case Err(e) => Step(Fail500(e), s1.trace)
    case Ok(data) =>
      var s2 := MoodleCallSpec(remote, s1.trace, authorization, GetContents, ContentsParams(courseId));
      match s2.out
      case Err(e) => Step(Fail500(e), s2.trace)
      case Ok(sections) =>
        match SectionMapOf(sections)
        case Err(e) => Step(Fail500(e), s2.trace)
        case Ok(m) =>
          match AnnotateForums(data, m)
          case Err(e) => Step(Fail500(e), s2.trace)
          case Ok(forums) => Step(Response(200, OkBody("forums", Arr(forums))), s2.trace)
  }

  method GetCourseForums(remote: Oracle, trace: seq<Call>, authorization: Option<string>, courseId: int)
    returns (res: Response, trace': seq<Call>)
    ensures Step(res, trace') == GetCourseForumsSpec(remote, trace, authorization, courseId)
  {
    var data;
    data, trace' := MoodleCall(remote, trace, authorization, ForumsByCourses, ForumsParams(courseId));
    if data.Err? {
      return Fail500(data.error), trace';
    }
    var sections;
    sections, trace' := MoodleCall(remote, trace', authorization, GetContents, ContentsParams(courseId));
    if sections.Err? {
      return Fail500(sections.error), trace';
    }
    var sectionMap := BuildSectionMap(sections.value);
    if sectionMap.Err? {
      return Fail500(sectionMap.error), trace';
    }
    match AnnotateForums(data.value, sectionMap.value) {
      case Err(e) => res := Fail500(e);
      case Ok(forums) => res := Response(200, OkBody("forums", Arr(forums)));
    }
  }

  /** With a token, the forums call comes first and the contents call second,
      both for the same course; a failed forums call stops before the second;
      the handler makes no other call. Without a token nothing is sent. */
  lemma GetCourseForumsCalls(remote: Oracle, trace: seq<Call>, authorization: Option<string>, courseId: int)
    ensures var s := GetCourseForumsSpec(remote, trace, authorization, courseId);
            var token := GetUserAuth(authorization);
            if !HasToken(token) then
              s == Step(Response(500, ErrorBody(Str(MissingTokenMessage))), trace)
            else
              var c1 := Rpc(RpcForm(token.value, ForumsByCourses, ForumsParams(courseId)));
              var c2 := Rpc(RpcForm(token.value, GetContents, ContentsParams(courseId)));
              (s.trace == trace + [c1] || s.trace == trace + [c1, c2]) &&
              (s.trace == trace + [c1] <==> MoodleCallSpec(remote, trace, authorization, ForumsByCourses, ForumsParams(courseId)).out.Err?)
  {
    var token := GetUserAuth(authorization);
    MoodleCallContract(remote, trace, authorization, ForumsByCourses, ForumsParams(courseId));
    GetCourseForumsTrace(remote, trace, authorization, courseId);
    if HasToken(token) {
      var c1 := Rpc(RpcForm(token.value, ForumsByCourses, ForumsParams(courseId)));
      var c2 := Rpc(RpcForm(token.value, GetContents, ContentsParams(courseId)));
      MoodleCallContract(remote, trace + [c1], authorization, GetContents, ContentsParams(courseId));
      assert trace + [c1] + [c2] == trace + [c1, c2];
    }
  }

  /** The answer's trace is the forums call's when that call fails, and the
      contents call's otherwise. */
  lemma GetCourseForumsTrace(remote: Oracle, trace: seq<Call>, authorization: Option<string>, courseId: int)
    ensures var s1 := MoodleCallSpec(remote, trace, authorization, ForumsByCourses, ForumsParams(courseId));
            var s2 := MoodleCallSpec(remote, s1.trace, authorization, GetContents, ContentsParams(courseId));
            GetCourseForumsSpec(remote, trace, authorization, courseId).trace ==
              if s1.out.Err? then s1.trace else s2.trace
  {
  }

  /** The same course id is sent as `courseids[0]` and as `courseid`. */
  lemma CourseForumsForms(token: string, courseId: int)
    ensures FormGet(RpcForm(token, ForumsByCourses, ForumsParams(courseId)), "courseids[0]") ==
            Some(IntToDecimal(courseId))
    ensures FormGet(RpcForm(token, GetContents, ContentsParams(courseId)), "courseid") ==
            Some(IntToDecimal(courseId))
  {
    RpcFormFields(token, ForumsByCourses, ForumsParams(courseId), "courseids[0]");
    RpcFormFields(token, GetContents, ContentsParams(courseId), "courseid");
  }

  /** A 200 answer lists exactly the forums of the reply, in order, each
      annotated; it happens iff both calls succeed, the contents are well
      shaped and the forums reply is falsy or an array of non-nullish forums. */
  lemma GetCourseForumsSuccess(remote: Oracle, trace: seq<Call>, authorization: Option<string>, courseId: int)
    ensures var s := GetCourseForumsSpec(remote, trace, authorization, courseId);
            var s1 := MoodleCallSpec(remote, trace, authorization, ForumsByCourses, ForumsParams(courseId));
            var s2 := MoodleCallSpec(remote, s1.trace, authorization, GetContents, ContentsParams(courseId));
            s.out.status == 200 <==>
              s1.out.Ok? && s2.out.Ok? && WellShapedSections(s2.out.value) &&
              (!Truthy(s1.out.value) ||
               (s1.out.value.Arr? && forall i :: 0 <= i < |s1.out.value.items| ==> !Nullish(s1.out.value.items[i])))
    ensures var s := GetCourseForumsSpec(remote, trace, authorization, courseId);
            var s1 := MoodleCallSpec(remote, trace, authorization, ForumsByCourses, ForumsParams(courseId));
            s.out.status == 200 ==>
              var list := Or(s1.out.value, Arr([]));
              s.out.body.Obj? && |s.out.body.props| == 2 && s.out.body.props[1].0 == "forums" &&
              var forums := s.out.body.props[1].1;
              forums.Arr? && |forums.items| == |list.items| &&
              forall i :: 0 <= i < |list.items| ==>
                Lookup(forums.items[i].props, "sectionName") != Undefined
  {
    var s1 := MoodleCallSpec(remote, trace, authorization, ForumsByCourses, ForumsParams(courseId));
    var s2 := MoodleCallSpec(remote, s1.trace, authorization, GetContents, ContentsParams(courseId));
    if s1.out.Ok? && s2.out.Ok? {
      SectionMapSucceedsIff(s2.out.value);
    }
  }

  // ----- replyToForum -----

  /** `replyToForum`: the reply, subscribing its author to the discussion. */
  function ReplyParams(postId: Value, subject: Value, message: Value): Props {
    [("postid", postId), ("subject", subject), ("message", message),
     ("options[0][name]", Str("discussionsubscribe")), ("options[0][value]", Bool(true))]
  }

  /** The reply form carries the post id, subject and message as given, and the
      subscription option as the strings "discussionsubscribe" and "true". */
  lemma ReplyForm(token: string, postId: Value, subject: Value, message: Value)
    ensures var form := RpcForm(token, AddDiscussionPost, ReplyParams(postId, subject, message));
            FormGet(form, "wsfunction") == Some(AddDiscussionPost) &&
            FormGet(form, "postid") == Some(ToStr(postId)) &&
            FormGet(form, "subject") == Some(ToStr(subject)) &&
            FormGet(form, "message") == Some(ToStr(message)) &&
            FormGet(form, "options[0][name]") == Some("discussionsubscribe") &&
            FormGet(form, "options[0][value]") == Some("true")
  {
    var p := ReplyParams(postId, subject, message);
    ReplyKeys(postId, subject, message);
    ParamSent(token, AddDiscussionPost, p, 0);
    ParamSent(token, AddDiscussionPost, p, 1);
    ParamSent(token, AddDiscussionPost, p, 2);
    ParamSent(token, AddDiscussionPost, p, 3);
    ParamSent(token, AddDiscussionPost, p, 4);
    RpcFormFields(token, AddDiscussionPost, p, "wsfunction");
  }

  /** The two option keys part at index 11; the others at their first letter. */
  lemma ReplyKeys(postId: Value, subject: Value, message: Value)
    ensures DistinctKeys(ReplyParams(postId, subject, message))
    ensures "wsfunction" !in Keys(ReplyParams(postId, subject, message))
  {
    var p := ReplyParams(postId, subject, message);
    assert "options[0][name]"[11] == 'n' && "options[0][value]"[11] == 'v';
    assert p[0].0[0] == 'p' && p[1].0[0] == 's' && p[2].0[0] == 'm';
    assert p[3].0[0] == 'o' && p[4].0[0] == 'o';
    assert Keys(p) == [p[0].0, p[1].0, p[2].0, p[3].0, p[4].0];
  }
}
