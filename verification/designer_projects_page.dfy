/** The designer's project page: the update form with its editable link
    list and its image list kept side by side with the image previews, the
    update it submits, and the overdue/urgent marking of a project card
    from the days left before its deadline. */
module DesignerProjectsPage {
  import opened Common
  import Text
  import Lists
  import DesignerProjectSlice

  /** The update form; `images` are the selected files, named by opaque
      handles. */
  datatype UpdateForm = UpdateForm(
    title: string, description: string, links: seq<string>, images: seq<string>, status: string)

  /** The form together with the preview URLs shown under it. */
  datatype Editor = Editor(form: UpdateForm, previews: seq<string>)

  /** Each selected file has its own preview, at the same position. */
  predicate Aligned(e: Editor) {
    |e.form.images| == |e.previews|
  }

  /** `resetUpdateForm`. */
  const EmptyEditor := Editor(UpdateForm("", "", [""], [], ""), [])

  // ---- link list ----

  /** `addLinkField`. */
  function AddLinkField(e: Editor): (r: Editor)
    ensures |r.form.links| == |e.form.links| + 1
    ensures r.form.links[..|e.form.links|] == e.form.links && r.form.links[|e.form.links|] == ""
    ensures r.form.images == e.form.images && r.previews == e.previews
  {
    e.(form := e.form.(links := e.form.links + [""]))
  }

  /** `updateLink(index, value)`. */
  function UpdateLink(e: Editor, i: int, v: string): (r: Editor)
    ensures |r.form.links| == |e.form.links|
    ensures forall j :: 0 <= j < |e.form.links| && j != i ==> r.form.links[j] == e.form.links[j]
    ensures 0 <= i < |e.form.links| ==> r.form.links[i] == v
    ensures r.form.images == e.form.images && r.previews == e.previews
  {
    e.(form := e.form.(links := Lists.SetAt(e.form.links, i, v)))
  }

  /** `removeLink(index)`. */
  function RemoveLink(e: Editor, i: int): (r: Editor)
    ensures 0 <= i < |e.form.links| ==> |r.form.links| == |e.form.links| - 1
    ensures 0 <= i < |e.form.links| ==> r.form.links == e.form.links[..i] + e.form.links[i + 1..]
    ensures !(0 <= i < |e.form.links|) ==> r == e
    ensures r.form.images == e.form.images && r.previews == e.previews
  {
    var links := Lists.RemoveAt(e.form.links, i);
    if 0 <= i < |e.form.links| then e.(form := e.form.(links := links)) else e
  }

  /** Adding a field and removing it again gives the list back; editing a
      field and writing its old value back does too. */
  lemma LinkEditsUndo(e: Editor, i: int, v: string)
    requires 0 <= i < |e.form.links|
    ensures RemoveLink(AddLinkField(e), |e.form.links|) == e
    ensures UpdateLink(UpdateLink(e, i, v), i, e.form.links[i]) == e
  {
    var r := RemoveLink(AddLinkField(e), |e.form.links|);
    assert r.form.links == e.form.links;
    assert UpdateLink(UpdateLink(e, i, v), i, e.form.links[i]).form.links == e.form.links;
  }

  // ---- images and previews ----

  /** `handleImageSelect`: the chosen files and their previews are
      appended. */
  function SelectImages(e: Editor, files: seq<string>, urls: seq<string>): (r: Editor)
    requires |files| == |urls|
    ensures Aligned(e) ==> Aligned(r)
    ensures |r.form.images| == |e.form.images| + |files|
    ensures r.form.images[..|e.form.images|] == e.form.images && r.form.images[|e.form.images|..] == files
    ensures |r.previews| == |e.previews| + |urls|
    ensures r.previews[..|e.previews|] == e.previews && r.previews[|e.previews|..] == urls
    ensures r.(form := r.form.(images := e.form.images), previews := e.previews) == e
  {
    e.(form := e.form.(images := e.form.images + files), previews := e.previews + urls)
  }

  /** `removeImage(index)`: the same position leaves both lists. */
  function RemoveImage(e: Editor, i: int): (r: Editor)
    ensures Aligned(e) ==> Aligned(r)
    ensures 0 <= i < |e.form.images| ==>
              && |r.form.images| == |e.form.images| - 1
              && r.form.images == e.form.images[..i] + e.form.images[i + 1..]
    ensures 0 <= i < |e.previews| ==>
              && |r.previews| == |e.previews| - 1
              && r.previews == e.previews[..i] + e.previews[i + 1..]
    ensures !(0 <= i < |e.form.images|) ==> r.form.images == e.form.images
    ensures !(0 <= i < |e.previews|) ==> r.previews == e.previews
    ensures Aligned(e) && !(0 <= i < |e.form.images|) ==> r == e
    ensures r.(form := r.form.(images := e.form.images), previews := e.previews) == e
  {
    e.(form := e.form.(images := Lists.RemoveAt(e.form.images, i)), previews := Lists.RemoveAt(e.previews, i))
  }

  /** After any removal every file still sits next to its own preview: the
      pair at each remaining position is the pair from one same earlier
      position, the one after it when it lies past the removed index. */
  lemma RemoveImageKeepsPairs(e: Editor, i: int, j: int)
    requires Aligned(e)
    requires 0 <= j < |RemoveImage(e, i).form.images|
    ensures var k := if 0 <= i < |e.form.images| && j >= i then j + 1 else j;
            && 0 <= k < |e.form.images|
            && RemoveImage(e, i).form.images[j] == e.form.images[k]
            && RemoveImage(e, i).previews[j] == e.previews[k]
  {
  }

  // ---- submission ----

  /** `link.trim()` is truthy. */
  predicate NonBlank(link: string) {
    Text.Trim(link) != ""
  }

  /** The links worth sending, untrimmed, in order: every non-blank link
      as often as it was typed, and no blank one. */
  function ValidLinks(links: seq<string>): (r: seq<string>)
    ensures Lists.IsSubsequence(r, links)
    ensures forall i :: 0 <= i < |r| ==> !Text.IsBlank(r[i])
    ensures forall l :: multiset(r)[l] == if Text.IsBlank(l) then 0 else multiset(links)[l]
  {
    var r := Lists.Filter(links, (l: string) => NonBlank(l));
    forall i | 0 <= i < |r|
      ensures !Text.IsBlank(r[i])
    {
      Text.TrimEmptyIffBlank(r[i]);
    }
    forall l
      ensures multiset(r)[l] == if Text.IsBlank(l) then 0 else multiset(links)[l]
    {
      Text.TrimEmptyIffBlank(l);
    }
    r
  }

  /** What the submit handler dispatches. */
  datatype Submission = Submission(
    projectId: string, draft: DesignerProjectSlice.UpdateDraft, images: seq<string>)

  /** `handleSubmitUpdate`: nothing when the description is blank (or no
      project is open, which throws and is logged); otherwise the update
      with its defaults. */
  function Submit(f: UpdateForm, selected: Option<string>): (r: Option<Submission>)
    ensures r.Some? <==> !Text.IsBlank(f.description) && selected.Some?
  {
    Text.TrimEmptyIffBlank(f.description);
    if Text.Trim(f.description) == "" || selected.None? then None
    else
      var valid := ValidLinks(f.links);
      var draft := DesignerProjectSlice.UpdateDraft(
        if f.title == "" then "Development Update" else f.title,
        f.description,
        if |valid| > 0 then Some("Links: " + Text.Join(valid, ", ")) else None,
        if f.status == "" then None else Some(f.status));
      Some(Submission(selected.value, draft, f.images))
  }

  /** The submitted update: the title defaults to "Development Update", an
      empty status is left out and a set one is sent, the description and
      the files go as they are, and remarks are present exactly when some
      link is not blank, reading "Links: " and the valid links joined by
      ", ". */
  lemma SubmitPayload(f: UpdateForm, id: string)
    requires !Text.IsBlank(f.description)
    ensures var r := Submit(f, Some(id));
            && r.Some? && r.value.projectId == id && r.value.images == f.images
            && r.value.draft.description == f.description
            && r.value.draft.title == (if f.title == "" then "Development Update" else f.title)
            && (r.value.draft.status.None? <==> f.status == "")
            && (f.status != "" ==> r.value.draft.status == Some(f.status))
            && (r.value.draft.remarks.None? <==> forall i :: 0 <= i < |f.links| ==> Text.IsBlank(f.links[i]))
            && (r.value.draft.remarks.Some? ==>
                  r.value.draft.remarks.value == "Links: " + Text.Join(ValidLinks(f.links), ", "))
  {
    NoValidLinksIffAllBlank(f.links);
  }

  lemma NoValidLinksIffAllBlank(links: seq<string>)
    ensures |ValidLinks(links)| == 0 <==> forall i :: 0 <= i < |links| ==> Text.IsBlank(links[i])
  {
    var valid := ValidLinks(links);
    if forall i :: 0 <= i < |links| ==> Text.IsBlank(links[i]) {
      assert |valid| == 0;
    } else {
      var i :| 0 <= i < |links| && !Text.IsBlank(links[i]);
      assert multiset(links)[links[i]] > 0;
      assert multiset(valid)[links[i]] > 0;
    }
  }

  /** The editor right after a reset submits nothing until a description is
      typed, and with one link typed the remarks read "Links: " and it. */
  lemma SubmitExamples(id: string, link: string, desc: string)
    requires !Text.IsBlank(link) && !Text.IsBlank(desc)
    ensures Submit(EmptyEditor.form, Some(id)) == None
    ensures var f := UpdateForm("", desc, [link], [], "");
            Submit(f, Some(id)).value.draft.remarks == Some("Links: " + link)
  {
    assert Text.IsBlank("");
    Text.TrimEmptyIffBlank(link);
    assert ValidLinks([link]) == [link];
  }

  // ---- deadline marking ----

  const DayMillis := 86400000

  /** `getDaysRemaining`: whole days to the deadline rounded up, or none
      without a deadline. Timestamps are milliseconds. */
  function DaysRemaining(deadline: Option<int>, now: int): (d: Option<int>)
    ensures deadline.None? <==> d.None?
    ensures d.Some? ==> (d.value - 1) * DayMillis < deadline.value - now <= d.value * DayMillis
  {
    if deadline.None? then None else Some(-((now - deadline.value) / DayMillis))
  }

  predicate IsOverdue(d: Option<int>) {
    d.Some? && d.value < 0
  }

  predicate IsUrgent(d: Option<int>) {
    d.Some? && 0 <= d.value <= 3
  }

  /** A card is never both overdue and urgent; it is overdue exactly when
      the deadline lies a full day or more in the past, and urgent exactly
      when it lies less than a day ago or at most three days ahead. */
  lemma DeadlineMarks(deadline: Option<int>, now: int)
    ensures !(IsOverdue(DaysRemaining(deadline, now)) && IsUrgent(DaysRemaining(deadline, now)))
    ensures deadline.Some? ==>
              (IsOverdue(DaysRemaining(deadline, now)) <==> deadline.value - now <= -DayMillis)
    ensures deadline.Some? ==>
              (IsUrgent(DaysRemaining(deadline, now)) <==>
                 -DayMillis < deadline.value - now <= 3 * DayMillis)
    ensures deadline.None? ==> !IsOverdue(DaysRemaining(deadline, now)) && !IsUrgent(DaysRemaining(deadline, now))
  {
    if deadline.Some? {
      var d := DaysRemaining(deadline, now).value;
      var diff := deadline.value - now;
      if d < 0 {
        assert d * DayMillis <= -DayMillis;
      } else {
        assert (d - 1) * DayMillis >= -DayMillis;
      }
      if d > 3 {
        assert (d - 1) * DayMillis >= 3 * DayMillis;
      }
      if 0 <= d <= 3 {
        assert d * DayMillis <= 3 * DayMillis;
      }
    }
  }
}
