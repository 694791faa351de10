/** The members' e-mail portal (components/pages/MembersEmailPortal.tsx): the
    list of addresses, the text copied to the clipboard and the CSV data
    URI. The clipboard is reached through the `writeSucceeds` outcome. */
module EmailPortal {
  import opened Wrappers
  import opened Text
  import opened Entities

  /** `members.map(m => m.email).filter(email => email)` */
  function AllEmails(ms: seq<Member>): seq<string>
    decreases |ms|
  {
    if |ms| == 0 then []
    else (if ms[0].email != "" then [ms[0].email] else []) + AllEmails(ms[1..])
  }

  lemma {:induction false} AllEmailsAppend(a: seq<Member>, b: seq<Member>)
    ensures AllEmails(a + b) == AllEmails(a) + AllEmails(b)
    decreases |a|
  {
    if |a| == 0 {
      assert a + b == b;
    } else {
      assert (a + b)[0] == a[0];
      assert (a + b)[1..] == a[1..] + b;
      AllEmailsAppend(a[1..], b);
      AppendAssoc(if a[0].email != "" then [a[0].email] else [], AllEmails(a[1..]), AllEmails(b));
    }
  }

  /** The list holds exactly the non-empty addresses of the members, one per
      member at most, in member order. */
  lemma {:induction false} AllEmailsCorrect(ms: seq<Member>)
    ensures forall e :: e in AllEmails(ms) <==> e != "" && exists m :: m in ms && m.email == e
    ensures |AllEmails(ms)| <= |ms|
    ensures (forall m :: m in ms ==> m.email != "") ==>
      |AllEmails(ms)| == |ms| && forall i :: 0 <= i < |ms| ==> AllEmails(ms)[i] == ms[i].email
    decreases |ms|
  {
    if |ms| > 0 {
      AllEmailsCorrect(ms[1..]);
      assert ms == [ms[0]] + ms[1..];
      assert forall m :: m in ms <==> m == ms[0] || m in ms[1..];
    }
  }

  /** `allEmails.join(", ")` */
  function CopyText(ms: seq<Member>): string {
    Join(AllEmails(ms), ", ")
  }

  /** Every listed address appears in the copied text. */
  lemma CopyTextHasEveryEmail(ms: seq<Member>)
    ensures forall k :: 0 <= k < |AllEmails(ms)| ==> Contains(CopyText(ms), AllEmails(ms)[k])
  {
    forall k | 0 <= k < |AllEmails(ms)|
      ensures Contains(CopyText(ms), AllEmails(ms)[k])
    {
      JoinContains(AllEmails(ms), ", ", k);
    }
  }

  const CsvPrefix := "data:text/csv;charset=utf-8,"

  /** The CSV data URI before `encodeURI`. */
  function CsvContent(ms: seq<Member>): string {
    CsvPrefix + Join(AllEmails(ms), "\n")
  }

  /** The CSV content is the prefix followed by one address per line: cut
      the prefix off and split at line breaks to get the list back. */
  lemma CsvContentReadsBack(ms: seq<Member>)
    requires exists m :: m in ms && m.email != ""
    requires forall m :: m in ms ==> '\n' !in m.email
    ensures StartsWith(CsvContent(ms), CsvPrefix)
    ensures Split(CsvContent(ms)[|CsvPrefix|..], '\n') == AllEmails(ms)
  {
    var emails := AllEmails(ms);
    AllEmailsCorrect(ms);
    var m :| m in ms && m.email != "";
    assert m.email in emails;
    forall k | 0 <= k < |emails|
      ensures '\n' !in emails[k]
    {
      assert emails[k] in emails;
    }
    SplitJoin(emails, '\n');
    assert CsvContent(ms)[|CsvPrefix|..] == Join(emails, "\n");
  }

  /** With no address to list, the CSV content is the prefix alone. */
  lemma CsvContentWithoutAddresses(ms: seq<Member>)
    requires forall m :: m in ms ==> m.email == ""
    ensures AllEmails(ms) == []
    ensures CsvContent(ms) == CsvPrefix
  {
    AllEmailsCorrect(ms);
  }

  class EmailPortalView {
    var copied: bool
    var clipboard: Option<string>
    var alerts: seq<string>

    constructor ()
      ensures !copied && clipboard.None? && alerts == []
    {
      copied, clipboard, alerts := false, None, [];
    }

    /** `handleCopyAll`: `copied` is set only when the clipboard write
        succeeded; a failure raises an alert instead. */
    method CopyAll(ms: seq<Member>, writeSucceeds: bool)
      modifies this
      ensures writeSucceeds ==> copied && clipboard == Some(CopyText(ms)) && alerts == old(alerts)
      ensures !writeSucceeds ==>
        && copied == old(copied) && clipboard == old(clipboard)
        && alerts == old(alerts) + ["Failed to copy emails. Please try again."]
    {
      if writeSucceeds {
        clipboard := Some(CopyText(ms));
        copied := true;
      } else {
        alerts := alerts + ["Failed to copy emails. Please try again."];
      }
    }

    /** The two-second timer after a copy. */
    method CopiedExpired()
      modifies this
      ensures !copied && clipboard == old(clipboard) && alerts == old(alerts)
    {
      copied := false;
    }
  }
}
