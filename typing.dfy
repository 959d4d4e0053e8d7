/** The text typer collaborator (texttyper.py), seen only from outside: what
    it was asked to type, and how. Clipboard and keystroke injection are not
    part of this model. */
module Typing {

  /** `type_text` pastes through the clipboard; `safe_type_text` types the
      characters one by one. */
  datatype TypedText = Pasted(text: string) | Typewritten(text: string)

  class TextTyper {
    /** Every request made of the typer, oldest first. */
    var typed: seq<TypedText>

    constructor()
      ensures typed == []
    {
      typed := [];
    }

    method TypeText(text: string)
      modifies this
      ensures typed == old(typed) + [Pasted(text)]
    {
      typed := typed + [Pasted(text)];
    }

    method SafeTypeText(text: string)
      modifies this
      ensures typed == old(typed) + [Typewritten(text)]
    {
      typed := typed + [Typewritten(text)];
    }
  }
}
