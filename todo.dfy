/** The shared to-do list: loading tasks, adding a task from the form,
    completing a task, and appending a comment to one task. */
module Todo {
  import opened Js

  // ---------------------------------------------------------------------------
  // fetchTasks

  /** `{ ...t, comments: Array.isArray(t.comments) ? t.comments : [] }` */
  function WithCommentList(t: Record): (r: Record)
    ensures "comments" in r && r["comments"].Arr?
    ensures Get(t, "comments").Arr? ==> r["comments"] == t["comments"]
    ensures !Get(t, "comments").Arr? ==> r["comments"] == Arr([])
    ensures forall k :: k != "comments" ==> Get(r, k) == Get(t, k)
  {
    t["comments" := if Get(t, "comments").Arr? then Get(t, "comments") else Arr([])]
  }

  /** `(data || []).map(...)`: the loaded tasks, each with an array of comments. */
  function LoadTasks(data: Option<seq<Record>>): (r: seq<Record>)
    ensures data.None? ==> r == []
    ensures data.Some? ==> |r| == |data.value| && forall i :: 0 <= i < |r| ==> r[i] == WithCommentList(data.value[i])
  {
    if data.None? then [] else seq(|data.value|, i requires 0 <= i < |data.value| => WithCommentList(data.value[i]))
  }

  /** Every loaded task carries an array of comments. */
  lemma LoadedHaveComments(data: Option<seq<Record>>)
    ensures forall t :: t in LoadTasks(data) ==> Get(t, "comments").Arr?
  {
  }

  // ---------------------------------------------------------------------------
  // handleAddTask

  /** The row `handleAddTask` inserts. */
  function NewTask(userId: string, creatorInput: string, userEmail: string, forInput: string, dueDate: string, description: string): (r: Record)
    ensures Get(r, "creator_id") == Str(userId)
    ensures Get(r, "creator_name") ==
      if Trim(creatorInput) != "" then Str(Trim(creatorInput)) else if userEmail != "" then Str(userEmail) else Str("User")
    ensures Get(r, "for_user_id") == Null
    ensures Get(r, "for_name") == if Trim(forInput) != "" then Str(Trim(forInput)) else Null
    ensures Get(r, "due_date") == if dueDate != "" then Str(dueDate) else Null
    ensures Get(r, "description") == Str(Trim(description))
    ensures Get(r, "is_complete") == Bool(false)
    ensures r.Keys == {"creator_id", "creator_name", "for_user_id", "for_name", "due_date", "description", "is_complete"}
  {
    map[
      "creator_id" := Str(userId),
      "creator_name" := Or(Str(Trim(creatorInput)), Or(Str(userEmail), Str("User"))),
      "for_user_id" := Null,
      "for_name" := Or(Str(Trim(forInput)), Null),
      "due_date" := Or(Str(dueDate), Null),
      "description" := Str(Trim(description)),
      "is_complete" := Bool(false)
    ]
  }

  /** The creator name is never empty: it falls back to the email, then to
      "User"; a typed name is used without surrounding white space. */
  lemma CreatorNamed(userId: string, creatorInput: string, userEmail: string, forInput: string, dueDate: string, description: string)
    ensures var n := Get(NewTask(userId, creatorInput, userEmail, forInput, dueDate, description), "creator_name");
      n.Str? && n.s != "" && (!AllSpace(creatorInput) ==> !IsSpace(n.s[0]) && !IsSpace(n.s[|n.s| - 1]))
  {
    TrimSpec(creatorInput);
  }

  /** How `handleAddTask` ends. */
  datatype AddResult =
    | NoDescription            // alert: the description is empty or only white space
    | NoUser                   // no signed-in user: nothing happens
    | Inserted(row: Record, ok: bool)  // the row was sent; `ok` is the insert's outcome

  /** `toggleComplete(task)`: the update it sends. */
  function ToggleUpdate(task: Record): (u: Record)
    ensures u.Keys == {"is_complete"}
    ensures u["is_complete"] == Bool(!Truthy(Get(task, "is_complete")))
  {
    map["is_complete" := Bool(!Truthy(Get(task, "is_complete")))]
  }

  /** Completing a task twice restores its completion state. */
  lemma ToggleTwice(task: Record)
    ensures var once := task["is_complete" := ToggleUpdate(task)["is_complete"]];
      ToggleUpdate(once)["is_complete"] == Bool(Truthy(Get(task, "is_complete")))
  {
  }

  // ---------------------------------------------------------------------------
  // adding a comment

  /** The comments a task already has: `task.comments || []`. */
  function CommentsOf(task: Record): seq<Value> {
    if Get(task, "comments").Arr? then Get(task, "comments").elems else []
  }

  /** The property name a task's id becomes in the drafts object. */
  function DraftKey(task: Record): string {
    ToStr(Get(task, "id"))
  }

  /** The draft's text when its trim is non-empty: `draft?.text?.trim()`. */
  function DraftText(drafts: map<string, Record>, key: string): Option<string> {
    if key in drafts && Get(drafts[key], "text").Str? && Trim(Get(drafts[key], "text").s) != ""
    then Some(Trim(Get(drafts[key], "text").s))
    else None
  }

  /** `{ by: (draft.by || '').trim() || null, text: draft.text.trim(), at }` */
  function NewComment(draft: Record, text: string, at: string): (c: Value)
    ensures c.Obj? && c.fields.Keys == {"by", "text", "at"}
    ensures c.fields["text"] == Str(text) && c.fields["at"] == Str(at)
    ensures c.fields["by"] == Null || (c.fields["by"].Str? && c.fields["by"].s != "")
    ensures var a := Trim(ToStr(Or(Get(draft, "by"), Str(""))));
      c.fields["by"] == if a == "" then Null else Str(a)
  {
    var author := Trim(ToStr(Or(Get(draft, "by"), Str(""))));
    Obj(map["by" := Or(Str(author), Null), "text" := Str(text), "at" := Str(at)])
  }

  /** `prev.map(t => t.id === task.id ? { ...t, comments: next } : t)` */
  function WithComments(tasks: seq<Record>, id: Value, next: seq<Value>): (r: seq<Record>)
    ensures |r| == |tasks|
    ensures forall i :: 0 <= i < |r| && StrictEq(Get(tasks[i], "id"), id) ==> r[i] == tasks[i]["comments" := Arr(next)]
    ensures forall i :: 0 <= i < |r| && !StrictEq(Get(tasks[i], "id"), id) ==> r[i] == tasks[i]
  {
    seq(|tasks|, i requires 0 <= i < |tasks| => if StrictEq(Get(tasks[i], "id"), id) then tasks[i]["comments" := Arr(next)] else tasks[i])
  }

  /** The page's state: the tasks, the new-task form, and the comment drafts. */
  class TodoPage {
    var userEmail: string
    var tasks: seq<Record>
    var showForm: bool
    var creatorInput: string
    var forInput: string
    var dueDate: string
    var description: string
    var drafts: map<string, Record>

    constructor (email: string, loaded: Option<seq<Record>>)
      ensures userEmail == email && tasks == LoadTasks(loaded)
      ensures !showForm && creatorInput == "" && forInput == "" && dueDate == "" && description == ""
      ensures drafts == map[]
    {
      userEmail := email;
      tasks := LoadTasks(loaded);
      showForm := false;
      creatorInput := "";
      forInput := "";
      dueDate := "";
      description := "";
      drafts := map[];
    }

    /** `handleAddTask`: refused for a blank description; after a successful
        insert the form is cleared except for the creator, and hidden. The
        tasks are fetched again from the table, which is not part of this model. */
    method AddTask(user: Option<string>, insertOk: bool) returns (r: AddResult)
      modifies this
      ensures r.NoDescription? <==> Trim(old(description)) == ""
      ensures r.NoUser? <==> Trim(old(description)) != "" && user.None?
      ensures r.Inserted? ==> r.ok == insertOk
      ensures r.Inserted? ==> r.row == NewTask(user.value, old(creatorInput), old(userEmail), old(forInput), old(dueDate), old(description))
      ensures r.Inserted? && insertOk ==>
        forInput == "" && dueDate == "" && description == "" && !showForm && creatorInput == old(creatorInput)
      ensures !(r.Inserted? && insertOk) ==>
        forInput == old(forInput) && dueDate == old(dueDate) && description == old(description)
        && showForm == old(showForm) && creatorInput == old(creatorInput)
      ensures tasks == old(tasks) && drafts == old(drafts) && userEmail == old(userEmail)
    {
      if Trim(description) == "" {
        return NoDescription;
      }
      if user.None? {
        return NoUser;
      }
      var row := NewTask(user.value, creatorInput, userEmail, forInput, dueDate, description);
      r := Inserted(row, insertOk);
      if !insertOk {
        return;
      }
      forInput := "";
      dueDate := "";
      description := "";
      showForm := false;
    }

    /** The comment button of `task`: a blank draft is ignored; otherwise the
        comment is appended to that task's comments and, once the update has
        succeeded, the task is replaced in the list and its draft cleared. */
    method AddComment(task: Record, at: string, updateOk: bool) returns (sent: Option<seq<Value>>)
      modifies this
      ensures DraftText(old(drafts), DraftKey(task)).None? ==> sent.None?
      ensures DraftText(old(drafts), DraftKey(task)).Some? ==>
        sent == Some(CommentsOf(task) + [NewComment(old(drafts)[DraftKey(task)], DraftText(old(drafts), DraftKey(task)).value, at)])
      ensures sent.Some? && updateOk ==>
        tasks == WithComments(old(tasks), Get(task, "id"), sent.value)
        && drafts == old(drafts)[DraftKey(task) := map["by" := Str(""), "text" := Str("")]]
      ensures !(sent.Some? && updateOk) ==> tasks == old(tasks) && drafts == old(drafts)
      ensures userEmail == old(userEmail) && showForm == old(showForm) && description == old(description)
      ensures creatorInput == old(creatorInput) && forInput == old(forInput) && dueDate == old(dueDate)
    {
      var key := DraftKey(task);
      var text := DraftText(drafts, key);
      if text.None? {
        return None;
      }
      var comment := NewComment(drafts[key], text.value, at);
      var next := CommentsOf(task) + [comment];
      sent := Some(next);
      if updateOk {
        tasks := WithComments(tasks, Get(task, "id"), next);
        drafts := drafts[key := map["by" := Str(""), "text" := Str("")]];
      }
    }
  }

  /** A comment is added at the end of the task's comments, which are
      otherwise kept, and every other task is left as it was. */
  lemma CommentAppended(tasks: seq<Record>, task: Record, next: seq<Value>, comment: Value, i: nat)
    requires next == CommentsOf(task) + [comment]
    requires i < |tasks|
    ensures var r := WithComments(tasks, Get(task, "id"), next);
      && (StrictEq(Get(tasks[i], "id"), Get(task, "id")) ==>
            CommentsOf(r[i])[..|CommentsOf(task)|] == CommentsOf(task) && CommentsOf(r[i])[|CommentsOf(task)|] == comment
            && |CommentsOf(r[i])| == |CommentsOf(task)| + 1)
      && (!StrictEq(Get(tasks[i], "id"), Get(task, "id")) ==> r[i] == tasks[i])
  {
  }
}
