/** The daily task templates of src/composables/useTemplates.ts: one list
    shared by every caller, read from local storage (`daily_templates`, the
    field `stored`) at most once, and written back after every change. The
    clock is a parameter. */
module DailyTemplates {
  import opened Types
  import opened TaskCatalog
  import Seqs
  import Strings

  /** `tpl-${Date.now()}`. */
  function TemplateId(nowMillis: nat): string
  {
    "tpl-" + Strings.NatToString(nowMillis)
  }

  /** The position of the first template with the id, or -1. */
  function IndexOfId(templates: seq<DailyTemplate>, id: string): (k: int)
    ensures -1 <= k < |templates|
    ensures k >= 0 ==> templates[k].id == id && forall j :: 0 <= j < k ==> templates[j].id != id
    ensures k < 0 <==> forall j :: 0 <= j < |templates| ==> templates[j].id != id
  {
    Seqs.FirstIndex(templates, (t: DailyTemplate) => t.id == id)
  }

  /** The fields `updateTemplate` may change, each only when supplied. */
  datatype TemplateUpdates = TemplateUpdates(name: Option<string>, description: Option<string>, tasks: Option<seq<PlannedTaskItem>>)

  function Updated(t: DailyTemplate, u: TemplateUpdates): (r: DailyTemplate)
    ensures r.id == t.id && r.createdAt == t.createdAt
    ensures r.name == (if u.name.Some? then u.name.value else t.name)
    ensures r.description == (if u.description.Some? then u.description.value else t.description)
    ensures r.tasks == (if u.tasks.Some? then u.tasks.value else t.tasks)
  {
    var t1 := if u.name.Some? then t.(name := u.name.value) else t;
    var t2 := if u.description.Some? then t1.(description := u.description.value) else t1;
    if u.tasks.Some? then t2.(tasks := u.tasks.value) else t2
  }

  /** Supplying nothing changes nothing. */
  lemma UpdateNothing(t: DailyTemplate)
    ensures Updated(t, TemplateUpdates(None, None, None)) == t
  {
  }

  class TemplateLibrary {
    var templates: seq<DailyTemplate>
    var loaded: bool
    /** Local storage's copy of the templates. */
    var stored: Option<seq<DailyTemplate>>

    constructor (stored: Option<seq<DailyTemplate>>)
      ensures templates == [] && !loaded && this.stored == stored
    {
      templates := [];
      loaded := false;
      this.stored := stored;
    }

    /** `load`: the stored list, if any, read once; later calls do nothing. */
    method Load()
      modifies this
      ensures loaded
      ensures old(loaded) ==> templates == old(templates)
      ensures !old(loaded) ==> templates == if stored.Some? then stored.value else old(templates)
      ensures stored == old(stored)
    {
      if loaded {
        return;
      }
      if stored.Some? {
        templates := stored.value;
      }
      loaded := true;
    }

    /** `save`. */
    method Save()
      modifies this
      ensures stored == Some(templates) && templates == old(templates) && loaded == old(loaded)
    {
      stored := Some(templates);
    }

    /** `addTemplate`: exactly one template with the given name, description
        and tasks appended, stored and returned. */
    method AddTemplate(name: string, tasks: seq<PlannedTaskItem>, description: string, nowMillis: nat, now: string)
      returns (tpl: DailyTemplate)
      modifies this
      ensures tpl == DailyTemplate(TemplateId(nowMillis), name, description, tasks, now)
      ensures templates == old(templates) + [tpl] && stored == Some(templates) && loaded == old(loaded)
    {
      tpl := DailyTemplate(TemplateId(nowMillis), name, description, tasks, now);
      templates := templates + [tpl];
      Save();
    }

    /** `updateTemplate`: the supplied fields written into the first
        template with the id, and the list stored; nothing for an unknown id. */
    method UpdateTemplate(id: string, updates: TemplateUpdates)
      modifies this
      ensures IndexOfId(old(templates), id) < 0 ==> templates == old(templates) && stored == old(stored)
      ensures IndexOfId(old(templates), id) >= 0 ==>
                var k := IndexOfId(old(templates), id);
                templates == old(templates)[k := Updated(old(templates)[k], updates)] && stored == Some(templates)
      ensures loaded == old(loaded)
    {
      var k := IndexOfId(templates, id);
      if k < 0 {
        return;
      }
      var tpl := templates[k];
      if updates.name.Some? {
        tpl := tpl.(name := updates.name.value);
      }
      if updates.description.Some? {
        tpl := tpl.(description := updates.description.value);
      }
      if updates.tasks.Some? {
        tpl := tpl.(tasks := updates.tasks.value);
      }
      templates := templates[k := tpl];
      Save();
    }

    /** `deleteTemplate`: the first template with the id removed and the
        list stored; nothing for an unknown id. */
    method DeleteTemplate(id: string)
      modifies this
      ensures IndexOfId(old(templates), id) < 0 ==> templates == old(templates) && stored == old(stored)
      ensures IndexOfId(old(templates), id) >= 0 ==>
                var k := IndexOfId(old(templates), id);
                templates == old(templates)[..k] + old(templates)[k + 1..] && stored == Some(templates)
      ensures loaded == old(loaded)
    {
      var idx := IndexOfId(templates, id);
      if idx != -1 {
        templates := Seqs.SpliceOut(templates, idx);
        Save();
      }
    }

    /** `getTemplate`: the first template with the id, if any. */
    function GetTemplate(id: string): (r: Option<DailyTemplate>)
      reads this
      ensures r.Some? <==> exists j :: 0 <= j < |templates| && templates[j].id == id
      ensures r.Some? ==> r.value.id == id &&
                          exists j :: 0 <= j < |templates| && templates[j] == r.value &&
                                      forall i :: 0 <= i < j ==> templates[i].id != id
    {
      var k := IndexOfId(templates, id);
      if k >= 0 then Some(templates[k]) else None
    }
  }

  /** A template just added is found by its id unless an earlier one has
      the same id. */
  lemma AddedIsFound(templates: seq<DailyTemplate>, tpl: DailyTemplate)
    requires IndexOfId(templates, tpl.id) < 0
    ensures IndexOfId(templates + [tpl], tpl.id) == |templates|
  {
    Seqs.FirstIndexAppend(templates, [tpl], (t: DailyTemplate) => t.id == tpl.id);
  }
}
