/**
  The `vmss-management.json` document as `restart_application` (actions.py)
  sees it after decoding, and the first-match comment update.
 */
module Vmss {
  import opened Wrappers

  /**
    One entry of the `apps` list. `name` is `None` when the entry has no string
    name (then `app.get("name")` never equals a record name); `comment` is `None`
    when absent; the remaining keys are carried along unchanged.
   */
  datatype Record = Record(name: Option<string>, comment: Option<string>, otherFields: map<string, string>)

  /** The decoded document: its `apps` list, if present, and its other keys. */
  datatype Document = Document(apps: Option<seq<Record>>, otherKeys: map<string, string>)

  /** `restart_vmss_data.get("apps", [])`. */
  function Apps(d: Document): (r: seq<Record>)
    ensures d.apps.None? ==> r == []
  {
    d.apps.GetOr([])
  }

  /** The position of the first record named `target`, if any. */
  function FirstMatch(apps: seq<Record>, target: string): (r: Option<nat>)
    ensures r.Some? ==> r.value < |apps| && apps[r.value].name == Some(target)
    ensures r.Some? ==> forall j :: 0 <= j < r.value ==> apps[j].name != Some(target)
    ensures r.None? <==> forall j :: 0 <= j < |apps| ==> apps[j].name != Some(target)
  {
    if apps == [] then None
    else if apps[0].name == Some(target) then Some(0)
    else match FirstMatch(apps[1..], target)
      case None => None
      case Some(i) => Some(i + 1)
  }

  /** The `apps` list after `app["comment"] = comment` on the first record named `target`. */
  function WithComment(apps: seq<Record>, target: string, comment: string): seq<Record> {
    match FirstMatch(apps, target)
    case None => apps
    case Some(i) => apps[i := apps[i].(comment := Some(comment))]
  }

  /**
    Only the `comment` of the first record named `target` changes: every other
    record, and the name and other fields of that one, stay as they were.
   */
  lemma WithCommentFrame(apps: seq<Record>, target: string, comment: string, i: nat)
    requires FirstMatch(apps, target) == Some(i)
    ensures var r := WithComment(apps, target, comment);
      && |r| == |apps|
      && r[i] == Record(apps[i].name, Some(comment), apps[i].otherFields)
      && (forall j :: 0 <= j < |apps| && j != i ==> r[j] == apps[j])
  {
  }

  /** Later records with the same name are left alone. */
  lemma WithCommentFirstOnly(apps: seq<Record>, target: string, comment: string, i: nat, j: nat)
    requires i < j < |apps| && apps[i].name == Some(target) && apps[j].name == Some(target)
    ensures WithComment(apps, target, comment)[j] == apps[j]
  {
  }

  /**
    The `for app in ...` loop: writes the comment into the first record named
    `target`, in place, and stops there.
   */
  method UpdateComment(apps: array<Record>, target: string, comment: string) returns (found: bool)
    modifies apps
    ensures found <==> FirstMatch(old(apps[..]), target).Some?
    ensures apps[..] == WithComment(old(apps[..]), target, comment)
  {
    found := false;
    var i := 0;
    while i < apps.Length
      invariant 0 <= i <= apps.Length
      invariant apps[..] == old(apps[..])
      invariant forall j :: 0 <= j < i ==> apps[j].name != Some(target)
    {
      if apps[i].name == Some(target) {
        apps[i] := apps[i].(comment := Some(comment));
        found := true;
        break;
      }
      i := i + 1;
    }
    if found {
      FirstMatchAt(old(apps[..]), target, i);
    }
  }

  /** A record named `target` with no such record before it is the first match. */
  lemma {:induction false} FirstMatchAt(apps: seq<Record>, target: string, i: nat)
    requires i < |apps| && apps[i].name == Some(target)
    requires forall j :: 0 <= j < i ==> apps[j].name != Some(target)
    ensures FirstMatch(apps, target) == Some(i)
  {
    if i > 0 {
      FirstMatchAt(apps[1..], target, i - 1);
    }
  }
}
