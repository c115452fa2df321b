/** The message validator of the chat function (`validateMessages`): a
    check of shape and size of the untyped `messages` value, where the first
    failing check decides the error. */
module Validator {
  import opened Json

  const MaxMessagesCount: int := 20
  const MaxMessageLength: int := 500

  const NotAnArray: string := "Messages must be an array"
  const TooManyMessages: string := "Too many messages"
  const InvalidFormat: string := "Invalid message format"
  const ContentNotString: string := "Message content must be a string"
  const MessageTooLong: string := "Message too long"

  /** `{ valid: boolean; error?: string }` */
  datatype ValidationResult = ValidationResult(valid: bool, error: Option<string>)

  /** What an accepted message is: an object whose `content` is a string of
      at most `MaxMessageLength` UTF-16 units. Its `role`, and every other
      field, may be anything. */
  predicate WellFormedMessage(m: Value) {
    && m.Obj?
    && "content" in m.fields
    && m.fields["content"].Str?
    && |m.fields["content"].units| <= MaxMessageLength
  }

  /** What an accepted conversation is: an array of at most
      `MaxMessagesCount` well-formed messages. */
  predicate IsConversation(v: Value) {
    && v.Arr?
    && |v.items| <= MaxMessagesCount
    && forall i :: 0 <= i < |v.items| ==> WellFormedMessage(v.items[i])
  }

  /** The checks the loop body makes of one element, in their order. An
      array passes the first check, since JavaScript's `typeof` calls it an
      object, and then has no `content`. */
  function ElementError(m: Value): (e: Option<string>)
    ensures e.None? <==> WellFormedMessage(m)
    ensures e.Some? ==> e.value in {InvalidFormat, ContentNotString, MessageTooLong}
    ensures e == Some(InvalidFormat) <==> !IsTypeofObject(m) || m.Null?
    ensures IsTypeofObject(m) && !m.Null? && !Property(m, "content").Str? ==> e == Some(ContentNotString)
    ensures IsTypeofObject(m) && !m.Null? && Property(m, "content").Str?
              && |Property(m, "content").units| > MaxMessageLength ==>
              e == Some(MessageTooLong)
  {
    if !IsTypeofObject(m) || m.Null? then Some(InvalidFormat)
    else if !Property(m, "content").Str? then Some(ContentNotString)
    else if |Property(m, "content").units| > MaxMessageLength then Some(MessageTooLong)
    else None
  }

  /** The error of the first element that fails, if any. */
  function FirstElementError(items: seq<Value>): (e: Option<string>)
    ensures e.None? <==> forall i :: 0 <= i < |items| ==> WellFormedMessage(items[i])
    ensures e.Some? ==> exists k :: && 0 <= k < |items|
                                     && (forall j :: 0 <= j < k ==> WellFormedMessage(items[j]))
                                     && e == ElementError(items[k])
  {
    if items == [] then None
    else if ElementError(items[0]).Some? then ElementError(items[0])
    else
      TailShift(items);
      FirstElementError(items[1..])
  }

  /** The first element being well formed, facts about the elements of the
      tail carry over to the whole sequence, one index further on. */
  lemma TailShift(items: seq<Value>)
    requires items != [] && WellFormedMessage(items[0])
    ensures forall k :: 0 <= k < |items| - 1 && (forall j :: 0 <= j < k ==> WellFormedMessage(items[1..][j]))
              ==> (forall j :: 0 <= j < k + 1 ==> WellFormedMessage(items[j])) && items[1..][k] == items[k + 1]
    ensures (forall i :: 0 <= i < |items| - 1 ==> WellFormedMessage(items[1..][i]))
              ==> forall i :: 0 <= i < |items| ==> WellFormedMessage(items[i])
  {
    assert forall j :: 0 < j < |items| ==> items[j] == items[1..][j - 1];
  }

  /** `validateMessages(messages)` as a function: the specification of the
      loop in `ValidateMessages`. It accepts exactly the conversations, and
      reports an error exactly when it rejects. */
  function Validate(messages: Value): (r: ValidationResult)
    ensures r.valid <==> IsConversation(messages)
    ensures r.valid <==> r.error.None?
  {
    if !messages.Arr? then ValidationResult(false, Some(NotAnArray))
    else if |messages.items| > MaxMessagesCount then ValidationResult(false, Some(TooManyMessages))
    else
      var e := FirstElementError(messages.items);
      if e.Some? then ValidationResult(false, e) else ValidationResult(true, None)
  }

  /** The order of the checks: the type of the value first, then the length
      of the array before any element is looked at, then the elements in
      order, where the first bad element names the error. */
  lemma {:induction false} ValidationOrder(messages: Value)
    ensures !messages.Arr? ==> Validate(messages).error == Some(NotAnArray)
    ensures messages.Arr? && |messages.items| > MaxMessagesCount ==>
              Validate(messages).error == Some(TooManyMessages)
    ensures forall k :: && messages.Arr? && |messages.items| <= MaxMessagesCount
                        && 0 <= k < |messages.items|
                        && !WellFormedMessage(messages.items[k])
                        && (forall j :: 0 <= j < k ==> WellFormedMessage(messages.items[j]))
                        ==> Validate(messages).error == ElementError(messages.items[k])
  {
  }

  /** The validator as the source runs it: a loop over the elements that
      returns at the first failure. */
  method ValidateMessages(messages: Value) returns (r: ValidationResult)
    ensures r == Validate(messages)
    ensures r.valid <==> IsConversation(messages)
  {
    if !messages.Arr? {
      return ValidationResult(false, Some(NotAnArray));
    }
    if |messages.items| > MaxMessagesCount {
      return ValidationResult(false, Some(TooManyMessages));
    }
    var items := messages.items;
    for i := 0 to |items|
      invariant forall j :: 0 <= j < i ==> WellFormedMessage(items[j])
    {
      var msg := items[i];
      if !IsTypeofObject(msg) || msg.Null? {
        ValidationOrder(messages);
        return ValidationResult(false, Some(InvalidFormat));
      }
      if !Property(msg, "content").Str? {
        ValidationOrder(messages);
        return ValidationResult(false, Some(ContentNotString));
      }
      if |Property(msg, "content").units| > MaxMessageLength {
        ValidationOrder(messages);
        return ValidationResult(false, Some(MessageTooLong));
      }
    }
    return ValidationResult(true, None);
  }
}
