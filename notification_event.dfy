/** NotificationEvent: the serializable bean carried on the notification
    queue. It holds the seven content fields of a notification; the object
    sent is a serialized copy, so a message carries its Value(). */
module JmsEvents {
  import opened Common
  import opened NotificationEntity

  class NotificationEvent {
    var destinataireId: Option<int>
    var expediteurId: Option<int>
    var typ: Option<string>
    var sujet: Option<string>
    var message: Option<string>
    var referenceId: Option<int>
    var typeReference: Option<string>

    /** The no-argument constructor: all seven fields null. */
    constructor ()
      ensures Value() == Content(None, None, None, None, None, None, None)
    {
      destinataireId, expediteurId, typ, sujet := None, None, None, None;
      message, referenceId, typeReference := None, None, None;
    }

    /** The four-argument constructor: sender and reference stay null. */
    constructor WithContent(destinataireId: Option<int>, typ: Option<string>, sujet: Option<string>, message: Option<string>)
      ensures Value() == Content(destinataireId, None, typ, sujet, message, None, None)
    {
      this.destinataireId, this.expediteurId, this.typ, this.sujet := destinataireId, None, typ, sujet;
      this.message, this.referenceId, this.typeReference := message, None, None;
    }

    /** The state a getter reads and serialization copies. */
    function Value(): Content
      reads this
    {
      Content(destinataireId, expediteurId, typ, sujet, message, referenceId, typeReference)
    }

    method SetDestinataireId(v: Option<int>)
      modifies this`destinataireId
      ensures Value() == old(Value()).(destinataireId := v)
    {
      destinataireId := v;
    }

    method SetExpediteurId(v: Option<int>)
      modifies this`expediteurId
      ensures Value() == old(Value()).(expediteurId := v)
    {
      expediteurId := v;
    }

    method SetType(v: Option<string>)
      modifies this`typ
      ensures Value() == old(Value()).(typ := v)
    {
      typ := v;
    }

    method SetSujet(v: Option<string>)
      modifies this`sujet
      ensures Value() == old(Value()).(sujet := v)
    {
      sujet := v;
    }

    method SetMessage(v: Option<string>)
      modifies this`message
      ensures Value() == old(Value()).(message := v)
    {
      message := v;
    }

    method SetReferenceId(v: Option<int>)
      modifies this`referenceId
      ensures Value() == old(Value()).(referenceId := v)
    {
      referenceId := v;
    }

    method SetTypeReference(v: Option<string>)
      modifies this`typeReference
      ensures Value() == old(Value()).(typeReference := v)
    {
      typeReference := v;
    }

    /** toString(). */
    function ToString(): string
      reads this
    {
      EventToString(Value())
    }
  }

  const EVENT_PREFIX: string := "NotificationEvent{destinataireId="

  /** The text of toString(): the recipient, the type and the subject, and
      nothing of the sender, the message or the reference. */
  function EventToString(e: Content): (s: string)
    ensures StartsWith(s, EVENT_PREFIX + LongStr(e.destinataireId) + ", type='" + Str(e.typ) + "', sujet='")
    ensures EndsWith(s, Str(e.sujet) + "'}")
  {
    EVENT_PREFIX + LongStr(e.destinataireId) + ", type='" + Str(e.typ) + "', sujet='" + Str(e.sujet) + "'}"
  }

  /** Two events that differ only in the fields toString leaves out print the same. */
  lemma ToStringIgnoresHiddenFields(a: Content, b: Content)
    requires a.destinataireId == b.destinataireId && a.typ == b.typ && a.sujet == b.sujet
    ensures EventToString(a) == EventToString(b)
  {
  }

  /** The printed recipient is recoverable: events for different recipients print differently. */
  lemma {:induction false} ToStringShowsRecipient(a: Content, b: Content)
    requires a.destinataireId != b.destinataireId
    ensures EventToString(a) != EventToString(b)
  {
    var la, lb := LongStr(a.destinataireId), LongStr(b.destinataireId);
    var sa, sb := EventToString(a), EventToString(b);
    var p := |EVENT_PREFIX|;
    assert sa[..p + |la|] == EVENT_PREFIX + la;
    assert sb[..p + |lb|] == EVENT_PREFIX + lb;
    assert sa[p + |la|] == ',' && sb[p + |lb|] == ',';
    if sa == sb {
      if |la| == |lb| {
        assert la == sa[p..p + |la|] == sb[p..p + |lb|] == lb;
        LongStrInjective(a.destinataireId, b.destinataireId);
      } else if |la| < |lb| {
        assert lb[|la|] == sb[p + |la|] == ',';
        LongStrHasNoComma(b.destinataireId, |la|);
      } else {
        assert la[|lb|] == sa[p + |lb|] == ',';
        LongStrHasNoComma(a.destinataireId, |lb|);
      }
    }
  }

  lemma LongStrHasNoComma(n: Option<int>, i: int)
    requires 0 <= i < |LongStr(n)|
    ensures LongStr(n)[i] != ','
  {
    if n.Some? && n.value < 0 && i > 0 {
      assert LongStr(n)[i] == NatToString(-n.value)[i - 1];
    }
  }

  lemma LongStrInjective(a: Option<int>, b: Option<int>)
    requires LongStr(a) == LongStr(b)
    ensures a == b
  {
    assert LongStr(a)[0] == LongStr(b)[0];
    if a.Some? && b.Some? {
      IntToStringInjective(a.value, b.value);
    }
  }

  lemma IntToStringInjective(x: int, y: int)
    requires IntToString(x) == IntToString(y)
    ensures x == y
  {
    assert IntToString(x)[0] == IntToString(y)[0];
    if x < 0 && y < 0 {
      assert NatToString(-x) == IntToString(x)[1..] == IntToString(y)[1..] == NatToString(-y);
      NatToStringInjective(-x, -y);
    } else if x >= 0 && y >= 0 {
      NatToStringInjective(x, y);
    }
  }

  lemma {:induction false} NatToStringInjective(x: nat, y: nat)
    requires NatToString(x) == NatToString(y)
    ensures x == y
    decreases x
  {
    var s := NatToString(x);
    NatToStringLong(x);
    NatToStringLong(y);
    if x >= 10 && y >= 10 {
      assert NatToString(x / 10) == s[..|s| - 1] == NatToString(y / 10);
      NatToStringInjective(x / 10, y / 10);
    }
  }

  lemma NatToStringLong(n: nat)
    ensures n < 10 <==> |NatToString(n)| == 1
  {
    if n >= 10 {
      assert |NatToString(n / 10)| >= 1;
    }
  }
}
