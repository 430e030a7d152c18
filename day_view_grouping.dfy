/**
 * The day view's grouping of the day's events into one column per email
 * (the `reduce` into a dictionary in src/App.tsx, followed by `Object.values`).
 *
 * `GroupByEmail` performs the reduce step by step on a map accumulator and a
 * sequence recording the order in which keys were first added; `Grouped` is
 * the specification it is proved against. The lemmas state what the columns
 * are: one per email, in order of first appearance, each with the events of
 * that email in their original order, named after the first event seen, and
 * together a permutation of the day's events.
 */
module DayViewGrouping {
  import opened JsValues
  import opened App

  /** One column of the day view: `{ email, name, events }`. */
  datatype Group = Group(email: string, name: Option<string>, events: seq<CalendarEvent>)

  function HasEmail(email: string): CalendarEvent -> bool {
    (e: CalendarEvent) => e.email == email
  }

  /** The events of one email, in their original order. */
  function EventsWith(evs: seq<CalendarEvent>, email: string): seq<CalendarEvent> {
    Filter(evs, HasEmail(email))
  }

  /** The index of the first event with the email, or `|evs|` when there is none. */
  function FirstIndex(evs: seq<CalendarEvent>, email: string): (r: nat)
    ensures r <= |evs|
    ensures r < |evs| ==> evs[r].email == email
    ensures forall k :: 0 <= k < r ==> evs[k].email != email
  {
    if evs == [] then 0
    else
      var prefix := evs[..|evs| - 1];
      var f := FirstIndex(prefix, email);
      if f < |prefix| then f
      else if evs[|evs| - 1].email == email then |prefix|
      else |evs|
  }

  /** The distinct emails of the events, in order of first appearance. */
  function Emails(evs: seq<CalendarEvent>): (r: seq<string>)
    ensures forall i, j :: 0 <= i < j < |r| ==> r[i] != r[j]
  {
    if evs == [] then []
    else
      var earlier := Emails(evs[..|evs| - 1]);
      var email := evs[|evs| - 1].email;
      if email in earlier then earlier else earlier + [email]
  }

  /** The name of the first event seen for the email. */
  function NameOf(evs: seq<CalendarEvent>, email: string): Option<string> {
    var f := FirstIndex(evs, email);
    if f < |evs| then evs[f].userName else None
  }

  function GroupFor(evs: seq<CalendarEvent>, email: string): Group {
    Group(email, NameOf(evs, email), EventsWith(evs, email))
  }

  /** The groups of the given emails, in that order. */
  function GroupsOver(evs: seq<CalendarEvent>, emails: seq<string>): (r: seq<Group>)
    ensures |r| == |emails|
    ensures forall i :: 0 <= i < |r| ==> r[i] == GroupFor(evs, emails[i])
  {
    if emails == [] then []
    else GroupsOver(evs, emails[..|emails| - 1]) + [GroupFor(evs, emails[|emails| - 1])]
  }

  /** `Object.values(userEvents)`: one group per email, in order of first appearance. */
  function Grouped(evs: seq<CalendarEvent>): (r: seq<Group>)
    ensures |r| == |Emails(evs)|
    ensures forall i :: 0 <= i < |r| ==> r[i].email == Emails(evs)[i] && r[i].events == EventsWith(evs, Emails(evs)[i])
  {
    GroupsOver(evs, Emails(evs))
  }

  /** All the groups' events, column after column. */
  function Flatten(groups: seq<Group>): seq<CalendarEvent> {
    if groups == [] then [] else Flatten(groups[..|groups| - 1]) + groups[|groups| - 1].events
  }

  // ---------------------------------------------------------------------------
  // The reduce

  /**
   * The accumulator after the reduce has seen `prefix`: its keys, in insertion
   * order, are the emails in order of first appearance, and each key's group
   * is that email's group over `prefix`.
   */
  ghost predicate Accumulates(prefix: seq<CalendarEvent>, acc: map<string, Group>, keys: seq<string>) {
    && keys == Emails(prefix)
    && (forall k :: k in acc <==> k in keys)
    && forall k :: k in acc ==> acc[k] == GroupFor(prefix, k)
  }

  /** The reduce over the day's events, then `Object.values`. */
  method GroupByEmail(evs: seq<CalendarEvent>) returns (groups: seq<Group>)
    ensures groups == Grouped(evs)
  {
    var acc: map<string, Group> := map[];
    var keys: seq<string> := [];  // the accumulator's keys in insertion order, the order `Object.values` follows
    for i := 0 to |evs|
      invariant Accumulates(evs[..i], acc, keys)
    {
      var event := evs[i];
      ghost var acc0, keys0 := acc, keys;
      var userKey := event.email;
      if userKey !in acc {
        acc := acc[userKey := Group(event.email, event.userName, [])];
        keys := keys + [userKey];
      }
      var group := acc[userKey];
      acc := acc[userKey := group.(events := group.events + [event])];
      ReduceStep(evs, i, acc0, keys0, group, acc, keys);
    }
    assert evs[..|evs|] == evs;
    groups := seq(|keys|, j requires 0 <= j < |keys| => acc[keys[j]]);
    ValuesAreGrouped(evs, acc, keys, groups);
  }

  /**
   * One call of the reduce callback, on `evs[i]`: a new email gets a group
   * named after this event and is appended to the keys, and the event is
   * appended to its email's group. The accumulator then describes one more event.
   */
  lemma ReduceStep(evs: seq<CalendarEvent>, i: nat, acc0: map<string, Group>, keys0: seq<string>,
                   group: Group, acc: map<string, Group>, keys: seq<string>)
    requires i < |evs| && Accumulates(evs[..i], acc0, keys0)
    requires keys == if evs[i].email in acc0 then keys0 else keys0 + [evs[i].email]
    requires group == if evs[i].email in acc0 then acc0[evs[i].email] else Group(evs[i].email, evs[i].userName, [])
    requires acc == acc0[evs[i].email := group.(events := group.events + [evs[i]])]
    ensures Accumulates(evs[..i + 1], acc, keys)
  {
    KeysStep(evs, i, acc0, keys0, keys);
    GroupsStep(evs, i, acc0, keys0, group, acc);
  }

  lemma KeysStep(evs: seq<CalendarEvent>, i: nat, acc0: map<string, Group>, keys0: seq<string>, keys: seq<string>)
    requires i < |evs| && keys0 == Emails(evs[..i])
    requires forall k :: k in acc0 <==> k in keys0
    requires keys == if evs[i].email in acc0 then keys0 else keys0 + [evs[i].email]
    ensures keys == Emails(evs[..i + 1])
  {
    assert evs[..i + 1][..i] == evs[..i];
  }

  lemma GroupsStep(evs: seq<CalendarEvent>, i: nat, acc0: map<string, Group>, keys0: seq<string>, group: Group, acc: map<string, Group>)
    requires i < |evs| && keys0 == Emails(evs[..i])
    requires forall k :: k in acc0 <==> k in keys0
    requires forall k :: k in acc0 ==> acc0[k] == GroupFor(evs[..i], k)
    requires group == if evs[i].email in acc0 then acc0[evs[i].email] else Group(evs[i].email, evs[i].userName, [])
    requires acc == acc0[evs[i].email := group.(events := group.events + [evs[i]])]
    ensures forall k :: k in acc ==> acc[k] == GroupFor(evs[..i + 1], k)
  {
    assert evs[..i + 1] == evs[..i] + [evs[i]];
    forall k | k in acc
      ensures acc[k] == GroupFor(evs[..i + 1], k)
    {
      GroupForStep(evs[..i], evs[i], k);
    }
  }

  /** Reading the finished accumulator in key order gives the specified groups. */
  lemma ValuesAreGrouped(evs: seq<CalendarEvent>, acc: map<string, Group>, keys: seq<string>, groups: seq<Group>)
    requires Accumulates(evs, acc, keys)
    requires |groups| == |keys| && forall j :: 0 <= j < |keys| ==> groups[j] == acc[keys[j]]
    ensures groups == Grouped(evs)
  {
    var spec := Grouped(evs);
    assert |spec| == |groups|;
    forall j | 0 <= j < |groups|
      ensures groups[j] == spec[j]
    {
      assert keys[j] in acc;
    }
  }

  // ---------------------------------------------------------------------------
  // Properties

  /** An email has a group exactly when some event carries it. */
  lemma EmailsMembership(evs: seq<CalendarEvent>, email: string)
    ensures email in Emails(evs) <==> FirstIndex(evs, email) < |evs|
    ensures email in Emails(evs) <==> EventsWith(evs, email) != []
  {
    EmailsFirstIndex(evs, email);
    EventsWithFirstIndex(evs, email);
  }

  lemma {:induction false} EmailsFirstIndex(evs: seq<CalendarEvent>, email: string)
    ensures email in Emails(evs) <==> FirstIndex(evs, email) < |evs|
  {
    if evs != [] {
      EmailsFirstIndex(evs[..|evs| - 1], email);
    }
  }

  lemma {:induction false} EventsWithFirstIndex(evs: seq<CalendarEvent>, email: string)
    ensures EventsWith(evs, email) != [] <==> FirstIndex(evs, email) < |evs|
  {
    if evs != [] {
      var prefix, last := evs[..|evs| - 1], evs[|evs| - 1];
      assert evs == prefix + [last];
      EventsWithFirstIndex(prefix, email);
      FilterAppend(prefix, [last], HasEmail(email));
    }
  }

  /** Appending one event adds it to the end of its email's group and changes no other group. */
  lemma GroupForStep(prefix: seq<CalendarEvent>, event: CalendarEvent, email: string)
    ensures var before := GroupFor(prefix, email);
            GroupFor(prefix + [event], email) ==
              if email != event.email then before
              else if email in Emails(prefix) then before.(events := before.events + [event])
              else Group(email, event.userName, [event])
  {
    EventsWithStep(prefix, event, email);
    NameOfStep(prefix, event, email);
    EmailsMembership(prefix, email);
  }

  lemma EventsWithStep(prefix: seq<CalendarEvent>, event: CalendarEvent, email: string)
    ensures EventsWith(prefix + [event], email) == EventsWith(prefix, email) + if event.email == email then [event] else []
  {
    FilterAppend(prefix, [event], HasEmail(email));
  }

  lemma NameOfStep(prefix: seq<CalendarEvent>, event: CalendarEvent, email: string)
    ensures NameOf(prefix + [event], email) ==
              if FirstIndex(prefix, email) < |prefix| then NameOf(prefix, email)
              else if event.email == email then event.userName
              else None
  {
    var evs := prefix + [event];
    assert evs[..|evs| - 1] == prefix;
  }

  /** Each email forms exactly one group, and only emails of the events form groups. */
  lemma OneGroupPerEmail(evs: seq<CalendarEvent>, email: string)
    ensures forall i, j :: 0 <= i < j < |Grouped(evs)| ==> Grouped(evs)[i].email != Grouped(evs)[j].email
    ensures (exists i :: 0 <= i < |Grouped(evs)| && Grouped(evs)[i].email == email) <==>
            (exists k :: 0 <= k < |evs| && evs[k].email == email)
  {
    var groups, emails := Grouped(evs), Emails(evs);
    EmailsMembership(evs, email);
    if email in emails {
      var i :| 0 <= i < |emails| && emails[i] == email;
      assert groups[i].email == email;
      assert evs[FirstIndex(evs, email)].email == email;
    }
  }

  /** Each group holds exactly the events with its email, in their original order. */
  lemma GroupContents(evs: seq<CalendarEvent>, i: int, e: CalendarEvent)
    requires 0 <= i < |Grouped(evs)|
    ensures Grouped(evs)[i].events == Filter(evs, HasEmail(Grouped(evs)[i].email))
    ensures e in Grouped(evs)[i].events <==> e in evs && e.email == Grouped(evs)[i].email
  {
    FilterMembership(evs, HasEmail(Grouped(evs)[i].email), e);
  }

  /** A group is named after the first event seen with its email. */
  lemma GroupNamedByFirstEvent(evs: seq<CalendarEvent>, i: int)
    requires 0 <= i < |Grouped(evs)|
    ensures FirstIndex(evs, Grouped(evs)[i].email) < |evs|
    ensures Grouped(evs)[i].name == evs[FirstIndex(evs, Grouped(evs)[i].email)].userName
  {
    EmailsMembership(evs, Emails(evs)[i]);
  }

  /** The emails come in the order in which they first appear among the events. */
  lemma {:induction false} EmailsInFirstAppearanceOrder(evs: seq<CalendarEvent>)
    ensures forall i, j :: 0 <= i < j < |Emails(evs)| ==>
              FirstIndex(evs, Emails(evs)[i]) < FirstIndex(evs, Emails(evs)[j])
  {
    if evs != [] {
      var prefix, last := evs[..|evs| - 1], evs[|evs| - 1];
      var earlier := Emails(prefix);
      EmailsInFirstAppearanceOrder(prefix);
      forall i | 0 <= i < |earlier|
        ensures FirstIndex(evs, earlier[i]) == FirstIndex(prefix, earlier[i]) < |prefix|
      {
        EmailsMembership(prefix, earlier[i]);
      }
      if last.email !in earlier {
        EmailsMembership(prefix, last.email);
        assert FirstIndex(evs, last.email) == |prefix|;
      }
    }
  }

  /** The groups come in the order in which their emails first appear. */
  lemma GroupsInFirstAppearanceOrder(evs: seq<CalendarEvent>, i: int, j: int)
    requires 0 <= i < j < |Grouped(evs)|
    ensures FirstIndex(evs, Grouped(evs)[i].email) < FirstIndex(evs, Grouped(evs)[j].email)
  {
    EmailsInFirstAppearanceOrder(evs);
  }

  /** The events of the given emails, email after email. */
  function EventsOver(evs: seq<CalendarEvent>, emails: seq<string>): seq<CalendarEvent> {
    if emails == [] then [] else EventsOver(evs, emails[..|emails| - 1]) + EventsWith(evs, emails[|emails| - 1])
  }

  lemma {:induction false} FlattenIsEventsOver(evs: seq<CalendarEvent>, emails: seq<string>)
    ensures Flatten(GroupsOver(evs, emails)) == EventsOver(evs, emails)
  {
    if emails != [] {
      var groups := GroupsOver(evs, emails);
      assert groups[..|groups| - 1] == GroupsOver(evs, emails[..|emails| - 1]);
      FlattenIsEventsOver(evs, emails[..|emails| - 1]);
    }
  }

  lemma {:induction false} EventsOverStep(prefix: seq<CalendarEvent>, event: CalendarEvent, emails: seq<string>)
    requires forall i, j :: 0 <= i < j < |emails| ==> emails[i] != emails[j]
    ensures multiset(EventsOver(prefix + [event], emails)) ==
            multiset(EventsOver(prefix, emails)) + if event.email in emails then multiset{event} else multiset{}
  {
    if emails != [] {
      var rest, email := emails[..|emails| - 1], emails[|emails| - 1];
      var evs := prefix + [event];
      var inRest, isLast := event.email in rest, event.email == email;
      assert (event.email in emails <==> inRest || isLast) && !(inRest && isLast) by {
        assert emails == rest + [email];
        assert forall i :: 0 <= i < |rest| ==> rest[i] == emails[i];
      }
      var before, after := EventsOver(prefix, emails), EventsOver(evs, emails);
      assert before == EventsOver(prefix, rest) + EventsWith(prefix, email);
      assert after == EventsOver(evs, rest) + EventsWith(evs, email);
      EventsWithStep(prefix, event, email);
      EventsOverStep(prefix, event, rest);
      AddToOneColumn(multiset(EventsOver(prefix, rest)), multiset(EventsWith(prefix, email)),
                     multiset(EventsOver(evs, rest)), multiset(EventsWith(evs, email)), multiset{event}, inRest, isLast);
    }
  }

  /** Two columns, of which at most one gains an element. */
  lemma AddToOneColumn<T>(a: multiset<T>, b: multiset<T>, a': multiset<T>, b': multiset<T>, e: multiset<T>, inA: bool, inB: bool)
    requires !(inA && inB)
    requires a' == a + (if inA then e else multiset{})
    requires b' == b + (if inB then e else multiset{})
    ensures a' + b' == a + b + (if inA || inB then e else multiset{})
  {
  }

  /** Concatenating the groups gives back the day's events, in some order. */
  lemma GroupedIsPermutation(evs: seq<CalendarEvent>)
    ensures multiset(Flatten(Grouped(evs))) == multiset(evs)
  {
    FlattenIsEventsOver(evs, Emails(evs));
    EventsOfAllEmails(evs);
  }

  lemma {:induction false} EventsOfAllEmails(evs: seq<CalendarEvent>)
    ensures multiset(EventsOver(evs, Emails(evs))) == multiset(evs)
  {
    if evs != [] {
      var prefix, last := evs[..|evs| - 1], evs[|evs| - 1];
      assert evs == prefix + [last];
      var earlier := Emails(prefix);
      EventsOfAllEmails(prefix);
      EventsOverStep(prefix, last, earlier);
      if last.email !in earlier {
        assert (earlier + [last.email])[..|earlier|] == earlier;
        EmailsMembership(prefix, last.email);
        EventsWithStep(prefix, last, last.email);
      }
    }
  }
}
