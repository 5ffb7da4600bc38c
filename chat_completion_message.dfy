/** ChatCompletionMessage: the role codec and the mutable message record. */
module ChatCompletionMessages {
  import opened Results
  import opened JavaStrings

  datatype Role = SYSTEM | USER | ASSISTANT

  /** Role.toString, the lower-case wire name; reading it back gives the same role. */
  function RoleName(r: Role): (s: string)
    ensures FromString(s) == Ok(r)
  {
    match r
    case SYSTEM => "system"
    case USER => "user"
    case ASSISTANT => "assistant"
  }

  /** The enum constant's name, which Enum.valueOf compares against. */
  function ConstantName(r: Role): string {
    match r
    case SYSTEM => "SYSTEM"
    case USER => "USER"
    case ASSISTANT => "ASSISTANT"
  }

  const RoleClassName := "com.example.application.service.openai.model.ChatCompletionMessage.Role"

  /** Role.fromString: Role.valueOf(value.toUpperCase()). */
  function FromString(value: string): Result<Role> {
    var name := ToUpperCase(value);
    if name == ConstantName(SYSTEM) then Ok(SYSTEM)
    else if name == ConstantName(USER) then Ok(USER)
    else if name == ConstantName(ASSISTANT) then Ok(ASSISTANT)
    else Err(IllegalArgument("No enum constant " + RoleClassName + "." + name))
  }

  /** fromString accepts exactly the role names in any letter case. */
  lemma FromStringAcceptsIff(value: string, r: Role)
    ensures FromString(value) == Ok(r) <==> EqualsIgnoreCase(value, RoleName(r))
  {
    var name := ToUpperCase(value);
    var constant := ToUpperCase(RoleName(r));
    assert constant == ConstantName(r);
    if EqualsIgnoreCase(value, RoleName(r)) {
      assert name == constant;
    }
    if FromString(value) == Ok(r) {
      assert name == ConstantName(r);
      assert forall i | 0 <= i < |value| :: UpperChar(value[i]) == name[i] == constant[i] == UpperChar(RoleName(r)[i]);
    }
  }

  /** A string that is no role name in any letter case is rejected with IllegalArgumentException. */
  lemma FromStringRejects(value: string)
    requires forall r: Role :: !EqualsIgnoreCase(value, RoleName(r))
    ensures FromString(value).Err? && FromString(value).error.IllegalArgument?
  {
    FromStringAcceptsIff(value, SYSTEM);
    FromStringAcceptsIff(value, USER);
    FromStringAcceptsIff(value, ASSISTANT);
  }

  /** fromString depends on its argument only through the upper-cased string. */
  lemma {:induction false} FromStringIgnoresCase(value: string)
    ensures FromString(ToUpperCase(value)) == FromString(value)
  {
    var once := ToUpperCase(value);
    var twice := ToUpperCase(once);
    assert forall i | 0 <= i < |value| :: twice[i] == UpperChar(UpperChar(value[i])) == once[i];
    assert twice == once;
  }

  /** An immutable snapshot of a ChatCompletionMessage, as the pipeline reads it. */
  datatype Message = Message(role: Role, content: string)

  /** The message record whose fields the setters update in place. */
  class ChatCompletionMessage {
    var role: Role
    var content: string

    constructor (role: Role, content: string)
      ensures this.role == role && this.content == content
    {
      this.role := role;
      this.content := content;
    }

    method GetRole() returns (r: Role)
      ensures r == role
    {
      r := role;
    }

    method SetRole(role: Role)
      modifies this
      ensures this.role == role && content == old(content)
    {
      this.role := role;
    }

    method GetContent() returns (c: string)
      ensures c == content
    {
      c := content;
    }

    method SetContent(content: string)
      modifies this
      ensures this.content == content && role == old(role)
    {
      this.content := content;
    }
  }
}
