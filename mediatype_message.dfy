/**
 * The message-template editor popup of a media type: it either updates an existing
 * template (taking its old type out of the list of types in use) or prepares a new
 * one (choosing the first message type not yet in use and its canned text), and in
 * both cases derives the event source and recovery stage from the message type when
 * the request gave neither.
 *
 * The media-type helper (its list of message types, its canned templates and its
 * message-type to event-source mapping) is external and given as a `Helper` value.
 */
module MediatypeMessage {
  import opened Common

  /** The fallback message type ("problem"), whose value is 0. */
  const MSG_TYPE_PROBLEM := 0

  /** A canned subject and body. */
  datatype Template = Template(subject: string, message: string)

  /** The event source and recovery stage a message type stands for. */
  datatype EventOrigin = EventOrigin(eventsource: int, recovery: int)

  /** The media-type helper: all message types in catalog order, the canned templates
      by (media type, message type, content type), and the message type to event origin
      mapping. The template lookup receives PHP `null` for a media type or content type the
      request did not give, and the mapping receives it when no message type was set. */
  datatype Helper = Helper(
    allMessageTypes: seq<int>,
    messageTemplate: (Option<int>, int, Option<int>) -> Template,
    fromMessageType: Option<int> -> EventOrigin)

  /** The validated request parameters; `None` marks a parameter the request did not give. */
  datatype Input = Input(
    mediaType: Option<int>,         // `type`
    contentType: Option<int>,       // `content_type`
    messageType: Option<int>,       // `message_type`
    oldMessageType: Option<int>,    // `old_message_type`
    messageTypes: seq<int>,         // `message_types`: the types already in use
    eventsource: Option<int>,       // `eventsource`
    recovery: Option<int>,          // `recovery`
    subject: Option<string>,        // `subject`
    message: Option<string>)        // `message`

  /** The `params` the popup is rendered with; `None` marks a key that is not set or holds `null`. */
  datatype Params = Params(
    mediaType: Option<int>,
    contentType: Option<int>,
    messageTypes: seq<int>,
    messageType: Option<int>,
    oldMessageType: Option<int>,
    subject: Option<string>,
    message: Option<string>,
    eventsource: Option<int>,
    recovery: Option<int>)

  /** PHP truthiness of an optional integer parameter: absent and 0 are false. */
  predicate Truthy(v: Option<int>) {
    v.Some? && v.value != 0
  }

  /** `s` without any element equal to `x`, the others in their original order. */
  function Without(s: seq<int>, x: int): seq<int> {
    if s == [] then []
    else Without(s[..|s| - 1], x) + (if s[|s| - 1] == x then [] else [s[|s| - 1]])
  }

  /** Every element equal to `x` is gone and every other element keeps its number of occurrences. */
  lemma {:induction false} WithoutRemovesExactly(s: seq<int>, x: int)
    ensures x !in Without(s, x)
    ensures multiset(Without(s, x)) == multiset(s)[x := 0]
  {
    if s != [] {
      var init, last := s[..|s| - 1], s[|s| - 1];
      WithoutRemovesExactly(init, x);
      assert s == init + [last];
    }
  }

  /** Removing from a concatenation removes from each part: the kept elements keep their order. */
  lemma {:induction false} WithoutAppend(a: seq<int>, b: seq<int>, x: int)
    ensures Without(a + b, x) == Without(a, x) + Without(b, x)
    decreases |b|
  {
    if b == [] {
      assert a + b == a;
    } else {
      var b' := b[..|b| - 1];
      assert (a + b)[..|a + b| - 1] == a + b';
      WithoutAppend(a, b', x);
    }
  }

  /** Removing from a list extended by one element. */
  lemma WithoutSnoc(s: seq<int>, y: int, x: int)
    ensures Without(s + [y], x) == Without(s, x) + (if y == x then [] else [y])
  {
    assert (s + [y])[..|s|] == s;
  }

  /** Removing from one more element of a list's prefix. */
  lemma WithoutPrefixStep(s: seq<int>, i: int, x: int)
    requires 0 <= i < |s|
    ensures Without(s[..i + 1], x) == Without(s[..i], x) + (if s[i] == x then [] else [s[i]])
  {
    assert s[..i + 1] == s[..i] + [s[i]];
    WithoutSnoc(s[..i], s[i], x);
  }

  /** Removing a value that does not occur changes nothing. */
  lemma {:induction false} WithoutAbsent(s: seq<int>, x: int)
    requires x !in s
    ensures Without(s, x) == s
  {
    if s != [] {
      WithoutAbsent(s[..|s| - 1], x);
      assert s == s[..|s| - 1] + [s[|s| - 1]];
    }
  }

  /** The first type of the catalog, in catalog order, that is not in use (`array_diff` then `reset`). */
  function FirstFree(catalog: seq<int>, inUse: seq<int>): Option<int> {
    if catalog == [] then None
    else if catalog[0] !in inUse then Some(catalog[0])
    else FirstFree(catalog[1..], inUse)
  }

  /** `FirstFree` finds nothing exactly when every catalog type is in use; otherwise it finds a
      free type all of whose predecessors in the catalog are in use. */
  lemma {:induction false} FirstFreeIsFirst(catalog: seq<int>, inUse: seq<int>)
    ensures FirstFree(catalog, inUse).None? <==> forall i :: 0 <= i < |catalog| ==> catalog[i] in inUse
    ensures FirstFree(catalog, inUse).Some? ==>
      exists i :: 0 <= i < |catalog| && catalog[i] == FirstFree(catalog, inUse).value && catalog[i] !in inUse
                  && forall j :: 0 <= j < i ==> catalog[j] in inUse
  {
    if catalog != [] && catalog[0] in inUse {
      var rest := catalog[1..];
      FirstFreeIsFirst(rest, inUse);
      assert forall i :: 1 <= i < |catalog| ==> catalog[i] == rest[i - 1];
      if FirstFree(rest, inUse).Some? {
        var k :| 0 <= k < |rest| && rest[k] == FirstFree(rest, inUse).value && rest[k] !in inUse
                 && forall j :: 0 <= j < k ==> rest[j] in inUse;
        assert catalog[k + 1] == rest[k];
      }
    }
  }

  /** The message type a new blank template gets: the first free one when it is truthy, else "problem". */
  function DefaultMessageType(catalog: seq<int>, inUse: seq<int>): int {
    var diff := FirstFree(catalog, inUse);
    if diff.Some? && diff.value != 0 then diff.value else MSG_TYPE_PROBLEM
  }

  /** Because "problem" is 0, the truthiness test only matters for "problem" itself: the
      default is simply the first free type, or "problem" when every type is in use. */
  lemma DefaultIsFirstFreeOrProblem(catalog: seq<int>, inUse: seq<int>)
    ensures DefaultMessageType(catalog, inUse) == FirstFree(catalog, inUse).GetOr(MSG_TYPE_PROBLEM)
    ensures (forall i :: 0 <= i < |catalog| ==> catalog[i] in inUse) ==> DefaultMessageType(catalog, inUse) == MSG_TYPE_PROBLEM
  {
    FirstFreeIsFirst(catalog, inUse);
  }

  /** With nothing in use, the first catalog type is chosen; for the usual catalog, which starts
      with "problem", that is "problem". */
  lemma DefaultWithNothingInUse(catalog: seq<int>)
    requires catalog != []
    ensures DefaultMessageType(catalog, []) == catalog[0]
    ensures catalog[0] == MSG_TYPE_PROBLEM ==> DefaultMessageType(catalog, []) == MSG_TYPE_PROBLEM
  {
  }

  /** The `foreach` / `unset` loop of the update branch: drops every element equal to `oldType`. */
  method RemoveType(types: seq<int>, oldType: int) returns (kept: seq<int>)
    ensures kept == Without(types, oldType)
  {
    kept := [];
    var i := 0;
    while i < |types|
      invariant 0 <= i <= |types|
      invariant kept == Without(types[..i], oldType)
    {
      var t := types[i];
      WithoutPrefixStep(types, i, oldType);
      if t != oldType {
        kept := kept + [t];
      }
      i := i + 1;
    }
    assert types[..i] == types;
  }

  /** The controller object; `messageTypes` is the catalog `init` loads. */
  class Controller {
    const helper: Helper
    var messageTypes: seq<int>

    /** `init`: loads the list of all message types. */
    constructor Init(helper: Helper)
      ensures this.helper == helper && messageTypes == helper.allMessageTypes
    {
      this.helper := helper;
      messageTypes := helper.allMessageTypes;
    }

    /** `checkPermissions`: anyone may open the popup. */
    method CheckPermissions() returns (allowed: bool)
      ensures allowed
    {
      allowed := true;
    }

    /** `doAction`: the popup's parameters for the update or the create branch. */
    method DoAction(input: Input) returns (data: Params)
      // copied from the request
      ensures data.mediaType == input.mediaType && data.contentType == input.contentType
      // update branch: the old type is taken out of the list, the rest is forwarded
      ensures input.oldMessageType.Some? ==>
        && data.messageTypes == Without(input.messageTypes, input.oldMessageType.value)
        && data.oldMessageType == input.oldMessageType
        && data.messageType == input.messageType
        && data.subject == input.subject
        && data.message == input.message
      // create branch: the list is unchanged
      ensures input.oldMessageType.None? ==> data.messageTypes == input.messageTypes && data.oldMessageType.None?
      // create branch with a type: forwarded as given
      ensures input.oldMessageType.None? && input.messageType.Some? ==>
        data.messageType == input.messageType && data.subject == input.subject && data.message == input.message
      // create branch without a type: the default type and its canned text
      ensures input.oldMessageType.None? && input.messageType.None? ==>
        var chosen := DefaultMessageType(messageTypes, input.messageTypes);
        var template := helper.messageTemplate(input.mediaType, chosen, input.contentType);
        && data.messageType == Some(chosen)
        && data.subject == Some(template.subject)
        && data.message == Some(template.message)
      // event source and recovery: derived only when neither was given
      ensures !Truthy(input.eventsource) && !Truthy(input.recovery) ==>
        && data.eventsource == Some(helper.fromMessageType(data.messageType).eventsource)
        && data.recovery == Some(helper.fromMessageType(data.messageType).recovery)
      ensures Truthy(input.eventsource) || Truthy(input.recovery) ==>
        data.eventsource.None? && data.recovery.None?
    {
      data := Params(input.mediaType, input.contentType, input.messageTypes, None, None, None, None, None, None);

      if input.oldMessageType.Some? {
        // update an existing template
        if input.messageType.Some? {
          data := data.(messageType := input.messageType);
        }
        data := data.(oldMessageType := input.oldMessageType);
        data := data.(subject := input.subject);
        data := data.(message := input.message);

        var kept := RemoveType(data.messageTypes, input.oldMessageType.value);
        data := data.(messageTypes := kept);
      } else {
        // add a new template
        if input.messageType.Some? {
          data := data.(messageType := input.messageType);
          data := data.(subject := input.subject);
          data := data.(message := input.message);
        } else {
          var diff := FirstFree(messageTypes, data.messageTypes);
          var chosen := if diff.Some? && diff.value != 0 then diff.value else MSG_TYPE_PROBLEM;
          data := data.(messageType := Some(chosen));
          var template := helper.messageTemplate(data.mediaType, chosen, data.contentType);
          data := data.(subject := Some(template.subject));
          data := data.(message := Some(template.message));
        }
      }

      if !Truthy(input.eventsource) && !Truthy(input.recovery) {
        var from := helper.fromMessageType(data.messageType);
        data := data.(eventsource := Some(from.eventsource));
        data := data.(recovery := Some(from.recovery));
      }
    }
  }
}
