/**
 * An in-memory stand-in for the hosted database: three tables held as
 * sequences of rows, selected by filtering on a key and kept in insertion
 * order. What the real store would decide (the ids and times it assigns,
 * whether a call raises, whether an insert comes back without data) is
 * given to each operation as an outcome.
 */
module Store {
  import opened Wrappers
  import opened Uuids
  import opened Models

  datatype Tables = Tables(workflows: seq<Workflow>, fields: seq<FieldSchema>, prompts: seq<Prompt>)

  /**
   * How the store answers one insert: with the new row (under the id and
   * creation time it assigns), with an empty `data`, or by raising an
   * exception with the given message.
   */
  datatype InsertOutcome = Inserted(id: Uuid, createdAt: Timestamp) | NoData | Raises(message: string)

  /**
   * Which selects raise, and with what message: the workflow lookup, the
   * listing of the workflow's fields, and the prompt listing of the k-th field.
   */
  datatype ReadFaults = ReadFaults(workflow: Option<string>, fields: Option<string>, prompts: nat -> Option<string>)

  /** The rows of `s` that satisfy `keep`, in their original order. */
  function Filter<T(!new)>(s: seq<T>, keep: T -> bool): (r: seq<T>)
    ensures |r| <= |s|
    ensures forall x :: x in r <==> x in s && keep(x)
    ensures forall i :: 0 <= i < |r| ==> keep(r[i])
  {
    if s == [] then [] else (if keep(s[0]) then [s[0]] else []) + Filter(s[1..], keep)
  }

  /** A row added at the end of a table is selected after every row that was there before. */
  lemma {:induction false} FilterAppend<T(!new)>(s: seq<T>, x: T, keep: T -> bool)
    ensures Filter(s + [x], keep) == Filter(s, keep) + (if keep(x) then [x] else [])
    decreases |s|
  {
    if s == [] {
      assert [] + [x] == [x];
      assert [x][1..] == [];
    } else {
      assert (s + [x])[1..] == s[1..] + [x];
      FilterAppend(s[1..], x, keep);
    }
  }

  /** A select keeps each matching row as often as the table holds it, and no other row. */
  lemma {:induction false} FilterCounts<T(!new)>(s: seq<T>, keep: T -> bool)
    ensures forall x :: multiset(Filter(s, keep))[x] == if keep(x) then multiset(s)[x] else 0
    decreases |s|
  {
    if s != [] {
      FilterCounts(s[1..], keep);
      assert s == [s[0]] + s[1..];
      assert multiset(s) == multiset([s[0]]) + multiset(s[1..]);
    }
  }

  /** A filter that every row passes keeps the whole table. */
  lemma {:induction false} FilterKeepsAll<T(!new)>(s: seq<T>, keep: T -> bool)
    requires forall x :: x in s ==> keep(x)
    ensures Filter(s, keep) == s
    decreases |s|
  {
    if s != [] {
      assert s[0] in s;
      assert forall x :: x in s[1..] ==> x in s;
      FilterKeepsAll(s[1..], keep);
      assert s == [s[0]] + s[1..];
    }
  }

  /** `select * from workflows where id = id`. */
  function WorkflowsWithId(ws: seq<Workflow>, id: Uuid): (r: seq<Workflow>)
    ensures forall w :: w in r <==> w in ws && w.id == id
  {
    Filter(ws, (w: Workflow) => w.id == id)
  }

  /** `select * from fields where workflow_id = workflowId`. */
  function FieldsOf(fs: seq<FieldSchema>, workflowId: Uuid): (r: seq<FieldSchema>)
    ensures forall f :: f in r <==> f in fs && f.workflowId == workflowId
    ensures forall i :: 0 <= i < |r| ==> r[i].workflowId == workflowId
  {
    Filter(fs, (f: FieldSchema) => f.workflowId == workflowId)
  }

  /** `select * from prompts where field_id = fieldId`. */
  function PromptsOf(ps: seq<Prompt>, fieldId: Uuid): (r: seq<Prompt>)
    ensures forall p :: p in r <==> p in ps && p.fieldId == fieldId
    ensures forall i :: 0 <= i < |r| ==> r[i].fieldId == fieldId
  {
    Filter(ps, (p: Prompt) => p.fieldId == fieldId)
  }

  /** The fields table once `delete from fields where id = id` has run. */
  function WithoutField(fs: seq<FieldSchema>, id: Uuid): (r: seq<FieldSchema>)
    ensures forall f :: f in r <==> f in fs && f.id != id
  {
    Filter(fs, (f: FieldSchema) => f.id != id)
  }

  lemma AppendedWorkflowIsSelected(ws: seq<Workflow>, w: Workflow)
    ensures WorkflowsWithId(ws + [w], w.id) == WorkflowsWithId(ws, w.id) + [w]
  {
    FilterAppend(ws, w, (x: Workflow) => x.id == w.id);
  }

  lemma AppendedFieldIsListed(fs: seq<FieldSchema>, f: FieldSchema)
    ensures FieldsOf(fs + [f], f.workflowId) == FieldsOf(fs, f.workflowId) + [f]
  {
    FilterAppend(fs, f, (x: FieldSchema) => x.workflowId == f.workflowId);
  }

  lemma AppendedPromptIsListed(ps: seq<Prompt>, p: Prompt)
    ensures PromptsOf(ps + [p], p.fieldId) == PromptsOf(ps, p.fieldId) + [p]
  {
    FilterAppend(ps, p, (x: Prompt) => x.fieldId == p.fieldId);
  }

  /** Deleting a field that was appended under a fresh id gives back the table as it was. */
  lemma DeletingAppendedField(fs: seq<FieldSchema>, f: FieldSchema)
    requires forall g :: g in fs ==> g.id != f.id
    ensures WithoutField(fs + [f], f.id) == fs
  {
    var keep := (x: FieldSchema) => x.id != f.id;
    FilterAppend(fs, f, keep);
    FilterKeepsAll(fs, keep);
  }

  /**
   * `insert into workflows (name)`: only an `Inserted` outcome changes the
   * table, appending the row the store reports back; an exception comes
   * back as its message.
   */
  function WorkflowInsert(t: Tables, name: string, o: InsertOutcome): (res: (Tables, Result<seq<Workflow>, string>))
    ensures !o.Inserted? ==> res.0 == t
    ensures o.Inserted? ==> var w := Workflow(o.id, name, o.createdAt);
                            res.0 == t.(workflows := t.workflows + [w]) && res.1 == Ok([w])
  {
    match o
    case Inserted(id, at) =>
      var w := Workflow(id, name, at);
      (t.(workflows := t.workflows + [w]), Ok([w]))
    case NoData => (t, Ok([]))
    case Raises(m) => (t, Err(m))
  }

  /** `insert into fields (workflow_id, name, data_type)`. */
  function FieldInsert(t: Tables, workflowId: Uuid, name: string, dataType: string, o: InsertOutcome)
    : (res: (Tables, Result<seq<FieldSchema>, string>))
    ensures !o.Inserted? ==> res.0 == t
    ensures o.Inserted? ==> var f := FieldSchema(o.id, workflowId, name, dataType, o.createdAt);
                            res.0 == t.(fields := t.fields + [f]) && res.1 == Ok([f])
  {
    match o
    case Inserted(id, at) =>
      var f := FieldSchema(id, workflowId, name, dataType, at);
      (t.(fields := t.fields + [f]), Ok([f]))
    case NoData => (t, Ok([]))
    case Raises(m) => (t, Err(m))
  }

  /** `insert into prompts (field_id, prompt_template)`. */
  function PromptInsert(t: Tables, fieldId: Uuid, template: string, o: InsertOutcome)
    : (res: (Tables, Result<seq<Prompt>, string>))
    ensures !o.Inserted? ==> res.0 == t
    ensures o.Inserted? ==> var p := Prompt(o.id, fieldId, template, o.createdAt);
                            res.0 == t.(prompts := t.prompts + [p]) && res.1 == Ok([p])
  {
    match o
    case Inserted(id, at) =>
      var p := Prompt(id, fieldId, template, at);
      (t.(prompts := t.prompts + [p]), Ok([p]))
    case NoData => (t, Ok([]))
    case Raises(m) => (t, Err(m))
  }

  /** `delete from fields where id = id`; a raising delete changes nothing and reports its message. */
  function FieldDelete(t: Tables, id: Uuid, fault: Option<string>): (res: (Tables, Option<string>))
    ensures fault.Some? ==> res == (t, fault)
    ensures fault.None? ==> res == (t.(fields := WithoutField(t.fields, id)), None)
  {
    if fault.Some? then (t, fault) else (t.(fields := WithoutField(t.fields, id)), None)
  }

  /** The store itself: the three tables, changed only by the operations below. */
  class Database {
    var workflows: seq<Workflow>
    var fields: seq<FieldSchema>
    var prompts: seq<Prompt>

    function State(): Tables
      reads this
    {
      Tables(workflows, fields, prompts)
    }

    constructor ()
      ensures State() == Tables([], [], [])
    {
      workflows, fields, prompts := [], [], [];
    }

    method InsertWorkflow(name: string, o: InsertOutcome) returns (reply: Result<seq<Workflow>, string>)
      modifies this
      ensures (State(), reply) == WorkflowInsert(old(State()), name, o)
    {
      match o
      case Inserted(id, at) =>
        var w := Workflow(id, name, at);
        workflows := workflows + [w];
        reply := Ok([w]);
      case NoData =>
        reply := Ok([]);
      case Raises(m) =>
        reply := Err(m);
    }

    method InsertField(workflowId: Uuid, name: string, dataType: string, o: InsertOutcome)
      returns (reply: Result<seq<FieldSchema>, string>)
      modifies this
      ensures (State(), reply) == FieldInsert(old(State()), workflowId, name, dataType, o)
    {
      match o
      case Inserted(id, at) =>
        var f := FieldSchema(id, workflowId, name, dataType, at);
        fields := fields + [f];
        reply := Ok([f]);
      case NoData =>
        reply := Ok([]);
      case Raises(m) =>
        reply := Err(m);
    }

    method InsertPrompt(fieldId: Uuid, template: string, o: InsertOutcome) returns (reply: Result<seq<Prompt>, string>)
      modifies this
      ensures (State(), reply) == PromptInsert(old(State()), fieldId, template, o)
    {
      match o
      case Inserted(id, at) =>
        var p := Prompt(id, fieldId, template, at);
        prompts := prompts + [p];
        reply := Ok([p]);
      case NoData =>
        reply := Ok([]);
      case Raises(m) =>
        reply := Err(m);
    }

    method DeleteField(id: Uuid, fault: Option<string>) returns (raised: Option<string>)
      modifies this
      ensures (State(), raised) == FieldDelete(old(State()), id, fault)
    {
      raised := fault;
      if fault.None? {
        fields := WithoutField(fields, id);
      }
    }
  }
}
