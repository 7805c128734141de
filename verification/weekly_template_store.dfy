/** Weekly checklist templates (src/stores/weekly-template.store.ts): a list
    of templates of which at most one is meant to be the default, stored as a
    whole after every change. The stored list is the field `stored`; fresh
    ids and the clock are parameters. */
module WeeklyTemplateStores {
  import opened Types
  import Seqs

  datatype WeekdayKey = Monday | Tuesday | Wednesday | Thursday | Friday | Saturday | Sunday

  /** One item of a day's checklist (`text` is its `label`), optionally tied to a catalog task. */
  datatype AnchorItem = AnchorItem(id: string, text: string, taskId: Option<string>)

  datatype DayTemplateConfig = DayTemplateConfig(mathItems: seq<AnchorItem>, languageItems: seq<AnchorItem>, reflectionEnabled: bool)

  datatype WeeklyTemplate = WeeklyTemplate(
    id: string, name: string, isDefault: bool, createdAt: string,
    days: map<WeekdayKey, DayTemplateConfig>)

  // ==================== The built-in template ====================

  const WEEKDAY_CONFIG := DayTemplateConfig(
    [AnchorItem("anchor-math-homework", "学校数学作业（含课堂配套练习）", Some("homework")),
     AnchorItem("anchor-math-hard", "1道难题（钻石/王者模式）", Some("math-hard"))],
    [AnchorItem("anchor-lang-recitation", "背诵", Some("recitation")),
     AnchorItem("anchor-lang-chinese", "中文阅读", None),
     AnchorItem("anchor-lang-en-or-fr", "英语/法语阅读（选一，可两项都做）", None)],
    true)

  const WEEKEND_CONFIG := DayTemplateConfig(
    [AnchorItem("anchor-math-hard", "1道难题（钻石/王者模式）", Some("math-hard"))],
    [AnchorItem("anchor-lang-chinese", "中文阅读", None),
     AnchorItem("anchor-lang-en-or-fr", "英语/法语阅读（选一，可两项都做）", None)],
    true)

  const DEFAULT_WEEKLY_TEMPLATE := WeeklyTemplate(
    "default", "标准学期模板", true, "2026-01-01T00:00:00.000Z",
    map[Monday := WEEKDAY_CONFIG, Tuesday := WEEKDAY_CONFIG, Wednesday := WEEKDAY_CONFIG,
        Thursday := WEEKDAY_CONFIG, Friday := WEEKDAY_CONFIG,
        Saturday := WEEKEND_CONFIG, Sunday := WEEKEND_CONFIG])

  /** The built-in template is the default, covers every day, and its
      weekend drops the school homework item. */
  lemma BuiltinTemplateShape()
    ensures DEFAULT_WEEKLY_TEMPLATE.isDefault
    ensures forall d: WeekdayKey :: d in DEFAULT_WEEKLY_TEMPLATE.days
    ensures |DEFAULT_WEEKLY_TEMPLATE.days[Saturday].mathItems| < |DEFAULT_WEEKLY_TEMPLATE.days[Monday].mathItems|
  {
    forall d: WeekdayKey ensures d in DEFAULT_WEEKLY_TEMPLATE.days {
      match d
      case Monday => case Tuesday => case Wednesday => case Thursday => case Friday =>
      case Saturday => case Sunday =>
    }
  }

  // ==================== Selection ====================

  /** `find(t => t.isDefault) ?? templates[0] ?? DEFAULT_WEEKLY_TEMPLATE`,
      where `builtin` is what the shared `DEFAULT_WEEKLY_TEMPLATE` object
      holds by now. */
  function DefaultOf(templates: seq<WeeklyTemplate>, builtin: WeeklyTemplate): (r: WeeklyTemplate)
    ensures (exists i :: 0 <= i < |templates| && templates[i].isDefault) ==>
              exists i :: 0 <= i < |templates| && templates[i].isDefault && r == templates[i] &&
                          forall j :: 0 <= j < i ==> !templates[j].isDefault
    ensures (forall i :: 0 <= i < |templates| ==> !templates[i].isDefault) && |templates| > 0 ==> r == templates[0]
    ensures templates == [] ==> r == builtin
  {
    var k := Seqs.FirstIndex(templates, (t: WeeklyTemplate) => t.isDefault);
    if k >= 0 then templates[k]
    else if |templates| > 0 then templates[0]
    else builtin
  }

  /** The position of the first template with the id, or -1. */
  function IndexOfId(templates: seq<WeeklyTemplate>, id: string): (k: int)
    ensures -1 <= k < |templates|
    ensures k >= 0 ==> templates[k].id == id && forall j :: 0 <= j < k ==> templates[j].id != id
    ensures k < 0 <==> forall j :: 0 <= j < |templates| ==> templates[j].id != id
  {
    Seqs.FirstIndex(templates, (t: WeeklyTemplate) => t.id == id)
  }

  /** `setDefault`'s result: the default flag set exactly on the templates
      with the id. */
  function WithDefault(templates: seq<WeeklyTemplate>, id: string): (r: seq<WeeklyTemplate>)
    ensures |r| == |templates|
    ensures forall i :: 0 <= i < |r| ==> r[i] == templates[i].(isDefault := templates[i].id == id)
  {
    seq(|templates|, i requires 0 <= i < |templates| => templates[i].(isDefault := templates[i].id == id))
  }

  /** No two templates share an id. */
  predicate UniqueIds(templates: seq<WeeklyTemplate>)
  {
    forall i, j :: 0 <= i < j < |templates| ==> templates[i].id != templates[j].id
  }

  /** At most one template is the default. */
  predicate SingleDefault(templates: seq<WeeklyTemplate>)
  {
    forall i, j :: 0 <= i < j < |templates| ==> !(templates[i].isDefault && templates[j].isDefault)
  }

  /** With unique ids, `setDefault` leaves a single default: the template
      with the id, which the default selection then returns; for an absent
      id no template is the default and the selection falls to the first. */
  lemma SetDefaultSelects(templates: seq<WeeklyTemplate>, id: string, builtin: WeeklyTemplate)
    requires UniqueIds(templates)
    ensures SingleDefault(WithDefault(templates, id))
    ensures IndexOfId(templates, id) >= 0 ==> DefaultOf(WithDefault(templates, id), builtin) == templates[IndexOfId(templates, id)].(isDefault := true)
    ensures IndexOfId(templates, id) < 0 && |templates| > 0 ==> DefaultOf(WithDefault(templates, id), builtin) == templates[0].(isDefault := false)
  {
    var r := WithDefault(templates, id);
    var k := IndexOfId(templates, id);
    if k >= 0 {
      assert r[k].isDefault;
      var d := DefaultOf(r, builtin);
      var i :| 0 <= i < |r| && r[i].isDefault && d == r[i] && forall j :: 0 <= j < i ==> !r[j].isDefault;
      assert templates[i].id == id;
    } else if |templates| > 0 {
      assert !r[0].isDefault;
    }
  }

  /** The fields `updateTemplate` may change. */
  datatype TemplateChanges = TemplateChanges(name: Option<string>, isDefault: Option<bool>, days: Option<map<WeekdayKey, DayTemplateConfig>>)

  /** `Object.assign(template, changes)`: present fields win; id and
      creation time are never among them. */
  function Assign(t: WeeklyTemplate, c: TemplateChanges): (r: WeeklyTemplate)
    ensures r.id == t.id && r.createdAt == t.createdAt
    ensures r.name == (if c.name.Some? then c.name.value else t.name)
    ensures r.isDefault == (if c.isDefault.Some? then c.isDefault.value else t.isDefault)
    ensures r.days == (if c.days.Some? then c.days.value else t.days)
  {
    t.(name := if c.name.Some? then c.name.value else t.name,
       isDefault := if c.isDefault.Some? then c.isDefault.value else t.isDefault,
       days := if c.days.Some? then c.days.value else t.days)
  }

  /** The position the shared built-in object has after a deletion of `id`:
      gone with the deleted templates, or moved down past them. */
  function BuiltinAfterDelete(templates: seq<WeeklyTemplate>, at: Option<nat>, id: string): Option<nat>
  {
    if at.None? || at.value >= |templates| || templates[at.value].id == id then None
    else Some(|Seqs.Filter(templates[..at.value], (t: WeeklyTemplate) => t.id != id)|)
  }

  class WeeklyTemplateStore {
    var templates: seq<WeeklyTemplate>
    /** What `weekly-templates.json` holds. */
    var stored: Option<seq<WeeklyTemplate>>
    /** What the module constant `DEFAULT_WEEKLY_TEMPLATE` holds. A first
        `load` puts that very object into the list, so the in-place updates
        of the list change it too. */
    var builtin: WeeklyTemplate
    /** The position of that shared object in the list, if it is there. */
    var builtinAt: Option<nat>

    /** The entry at `builtinAt` is the shared object. */
    predicate Valid()
      reads this
    {
      builtinAt.Some? ==> builtinAt.value < |templates| && templates[builtinAt.value] == builtin
    }

    constructor (stored: Option<seq<WeeklyTemplate>>)
      ensures templates == [] && this.stored == stored
      ensures builtin == DEFAULT_WEEKLY_TEMPLATE && builtinAt.None? && Valid()
    {
      templates := [];
      this.stored := stored;
      builtin := DEFAULT_WEEKLY_TEMPLATE;
      builtinAt := None;
    }

    /** `defaultTemplate`. */
    function DefaultTemplate(): WeeklyTemplate
      reads this
    {
      DefaultOf(templates, builtin)
    }

    /** `save`. */
    method Save()
      modifies this
      ensures stored == Some(templates) && templates == old(templates)
      ensures builtin == old(builtin) && builtinAt == old(builtinAt)
    {
      stored := Some(templates);
    }

    /** `load`: the stored list when it has a template; otherwise the shared
        built-in object itself, as earlier updates left it, which is then
        stored. */
    method Load()
      requires Valid()
      modifies this
      ensures old(stored).Some? && |old(stored).value| > 0 ==>
                templates == old(stored).value && stored == old(stored) && builtinAt.None?
      ensures !(old(stored).Some? && |old(stored).value| > 0) ==>
                templates == [old(builtin)] && stored == Some(templates) && builtinAt == Some(0)
      ensures builtin == old(builtin) && Valid()
    {
      var data := stored;
      if data.Some? && |data.value| > 0 {
        templates := data.value;
        builtinAt := None;
      } else {
        templates := [builtin];
        builtinAt := Some(0);
        Save();
      }
    }

    /** `createFromTemplate`: a copy of the given template (the default one
        when none is given) under a fresh id and the name, not the default,
        created now; the store is not changed. */
    method CreateFromTemplate(name: string, sourceTemplate: Option<WeeklyTemplate>, freshId: string, now: string)
      returns (t: WeeklyTemplate)
      ensures var source := if sourceTemplate.Some? then sourceTemplate.value else DefaultOf(templates, builtin);
              t.days == source.days && t.id == freshId && t.name == name && !t.isDefault && t.createdAt == now
    {
      var source := if sourceTemplate.Some? then sourceTemplate.value else DefaultTemplate();
      t := source.(id := freshId, name := name, isDefault := false, createdAt := now);
    }

    /** `addTemplate`: appended and stored. */
    method AddTemplate(template: WeeklyTemplate)
      requires Valid()
      modifies this
      ensures templates == old(templates) + [template] && stored == Some(templates)
      ensures builtin == old(builtin) && builtinAt == old(builtinAt) && Valid()
    {
      templates := templates + [template];
      Save();
    }

    /** `updateTemplate`: the first template with the id takes the changes
        and the list is stored; nothing for a missing id. When that template
        is the shared built-in object, the object changes with it. */
    method UpdateTemplate(id: string, changes: TemplateChanges)
      requires Valid()
      modifies this
      ensures IndexOfId(old(templates), id) < 0 ==>
                templates == old(templates) && stored == old(stored) && builtin == old(builtin)
      ensures IndexOfId(old(templates), id) >= 0 ==>
                var k := IndexOfId(old(templates), id);
                templates == old(templates)[k := Assign(old(templates)[k], changes)] && stored == Some(templates) &&
                builtin == (if old(builtinAt) == Some(k) then templates[k] else old(builtin))
      ensures builtinAt == old(builtinAt) && Valid()
    {
      var idx := IndexOfId(templates, id);
      if idx < 0 {
        return;
      }
      templates := templates[idx := Assign(templates[idx], changes)];
      if builtinAt == Some(idx) {
        builtin := templates[idx];
      }
      Save();
    }

    /** `updateDayConfig`: one day of the first template with the id
        replaced and the list stored; nothing for a missing id. When that
        template is the shared built-in object, the object changes with it. */
    method UpdateDayConfig(id: string, day: WeekdayKey, config: DayTemplateConfig)
      requires Valid()
      modifies this
      ensures IndexOfId(old(templates), id) < 0 ==>
                templates == old(templates) && stored == old(stored) && builtin == old(builtin)
      ensures IndexOfId(old(templates), id) >= 0 ==>
                var k := IndexOfId(old(templates), id);
                templates == old(templates)[k := old(templates)[k].(days := old(templates)[k].days[day := config])] &&
                stored == Some(templates) &&
                builtin == (if old(builtinAt) == Some(k) then templates[k] else old(builtin))
      ensures builtinAt == old(builtinAt) && Valid()
    {
      var k := IndexOfId(templates, id);
      if k < 0 {
        return;
      }
      var tpl := templates[k];
      templates := templates[k := tpl.(days := tpl.days[day := config])];
      if builtinAt == Some(k) {
        builtin := templates[k];
      }
      Save();
    }

    /** `deleteTemplate`: refused for a missing id or when the first
        template with the id is the default; otherwise every template with
        the id is removed and the list stored. The shared built-in object
        keeps its contents, in or out of the list. */
    method DeleteTemplate(id: string)
      requires Valid()
      modifies this
      ensures IndexOfId(old(templates), id) < 0 || old(templates)[IndexOfId(old(templates), id)].isDefault ==>
                templates == old(templates) && stored == old(stored) && builtinAt == old(builtinAt)
      ensures IndexOfId(old(templates), id) >= 0 && !old(templates)[IndexOfId(old(templates), id)].isDefault ==>
                templates == Seqs.Filter(old(templates), (t: WeeklyTemplate) => t.id != id) && stored == Some(templates) &&
                builtinAt == BuiltinAfterDelete(old(templates), old(builtinAt), id)
      ensures builtin == old(builtin) && Valid()
    {
      var k := IndexOfId(templates, id);
      if k < 0 || templates[k].isDefault {
        return;
      }
      var keep := (t: WeeklyTemplate) => t.id != id;
      var at := BuiltinAfterDelete(templates, builtinAt, id);
      if at.Some? {
        Seqs.FilterPosition(templates, builtinAt.value, keep);
      }
      templates := Seqs.Filter(templates, keep);
      builtinAt := at;
      Save();
    }

    /** `setDefault`: every template's flag rewritten, in place, to whether
        its id is the one given, the shared built-in object's included; the
        list is stored. */
    method SetDefault(id: string)
      requires Valid()
      modifies this
      ensures templates == WithDefault(old(templates), id) && stored == Some(templates)
      ensures builtin == (if old(builtinAt).Some? then templates[old(builtinAt).value] else old(builtin))
      ensures builtinAt == old(builtinAt) && Valid()
    {
      for i := 0 to |templates|
        invariant |templates| == |old(templates)| && builtinAt == old(builtinAt) && builtin == old(builtin)
        invariant forall j :: 0 <= j < i ==> templates[j] == old(templates)[j].(isDefault := old(templates)[j].id == id)
        invariant forall j :: i <= j < |templates| ==> templates[j] == old(templates)[j]
      {
        var t := templates[i];
        templates := templates[i := t.(isDefault := t.id == id)];
      }
      if builtinAt.Some? {
        builtin := templates[builtinAt.value];
      }
      Save();
    }
  }

  /** From empty storage: after `load`, making another template the default
      also clears the flag of the shared built-in object, so the built-in
      template can then be deleted; the default selection and a second
      `load` hand back the changed object, which can be deleted again. */
  method BuiltinChangedInPlace() returns (fallback: WeeklyTemplate, reloaded: seq<WeeklyTemplate>, after: seq<WeeklyTemplate>)
    ensures fallback == DEFAULT_WEEKLY_TEMPLATE.(isDefault := false)
    ensures reloaded == [DEFAULT_WEEKLY_TEMPLATE.(isDefault := false)]
    ensures after == []
  {
    var store := new WeeklyTemplateStore(None);
    store.Load();
    store.SetDefault("x");
    assert store.templates == [DEFAULT_WEEKLY_TEMPLATE.(isDefault := false)];
    assert IndexOfId(store.templates, "default") == 0;
    store.DeleteTemplate("default");
    assert store.templates == [];
    fallback := store.DefaultTemplate();
    store.Load();
    reloaded := store.templates;
    assert IndexOfId(store.templates, "default") == 0;
    store.DeleteTemplate("default");
    assert store.templates == [];
    after := store.templates;
  }

  /** A deletion that goes ahead leaves no template with the id and keeps
      every template with another id. */
  lemma DeletionRemovesId(templates: seq<WeeklyTemplate>, id: string)
    ensures var r := Seqs.Filter(templates, (t: WeeklyTemplate) => t.id != id);
            (forall i :: 0 <= i < |r| ==> r[i].id != id) &&
            (forall i :: 0 <= i < |templates| && templates[i].id != id ==> templates[i] in r)
  {
    var r := Seqs.Filter(templates, (t: WeeklyTemplate) => t.id != id);
    forall i | 0 <= i < |r| ensures r[i].id != id {
      assert r[i] in r;
    }
  }
}
