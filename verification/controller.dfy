/** Translation of browser input events into abstract input events: the
    mouse-button and key tables, and how each kind of browser event becomes
    an `OperationParam` handed to the game model. The event objects are
    reduced to the fields the translation reads. */
module Controller {
  import opened Values
  import opened Input
  import opened Game

  /** The fields of a browser mouse event that the translation reads. */
  datatype MouseEvent = MouseEvent(button: int, x: real, y: real)

  /** The fields of a browser keyboard event that the translation reads. */
  datatype KeyboardEvent = KeyboardEvent(key: string, repeat: bool)

  /** The mouse-button table: button number to abstract key, None for a
      button the table does not list. */
  function MouseButtonTable(button: int): Option<VirtualKey>
  {
    match button
    case 0 => Some(MouseLeft)
    case 1 => Some(MouseMiddle)
    case 2 => Some(MouseRight)
    case 3 => Some(MouseBack)
    case 4 => Some(MouseNext)
    case _ => None
  }

  /** The key table: browser key name to abstract key, None for a name the
      table does not list. The one-character names (the space, the lower-case
      letters and the digits) are looked up by their character, the longer
      names by the whole name. */
  function KeyTable(key: string): Option<VirtualKey>
  {
    if |key| == 1 then CharKeyTable(key[0]) else NamedKeyTable(key)
  }

  /** The entries of the key table whose name is one character long. */
  function CharKeyTable(c: char): Option<VirtualKey>
  {
    if c == ' ' then Some(Space)
    else if 'a' <= c <= 'z' then LetterKeyTable(c)
    else DigitKeyTable(c)
  }

  function LetterKeyTable(c: char): Option<VirtualKey>
  {
    match c
    case 'a' => Some(A)
    case 'b' => Some(B)
    case 'c' => Some(C)
    case 'd' => Some(D)
    case 'e' => Some(E)
    case 'f' => Some(F)
    case 'g' => Some(G)
    case 'h' => Some(H)
    case 'i' => Some(I)
    case 'j' => Some(J)
    case 'k' => Some(K)
    case 'l' => Some(L)
    case 'm' => Some(M)
    case 'n' => Some(N)
    case 'o' => Some(O)
    case 'p' => Some(P)
    case 'q' => Some(Q)
    case 'r' => Some(R)
    case 's' => Some(S)
    case 't' => Some(T)
    case 'u' => Some(U)
    case 'v' => Some(V)
    case 'w' => Some(W)
    case 'x' => Some(X)
    case 'y' => Some(Y)
    case 'z' => Some(Z)
    case _ => None
  }

  function DigitKeyTable(c: char): Option<VirtualKey>
  {
    match c
    case '0' => Some(T0)
    case '1' => Some(T1)
    case '2' => Some(T2)
    case '3' => Some(T3)
    case '4' => Some(T4)
    case '5' => Some(T5)
    case '6' => Some(T6)
    case '7' => Some(T7)
    case '8' => Some(T8)
    case '9' => Some(T9)
    case _ => None
  }

  /** The entries of the key table whose name is longer than one character. */
  function NamedKeyTable(key: string): Option<VirtualKey>
  {
    match key
    case "Enter" => Some(Enter)
    case "Escape" => Some(Escape)
    case "Control" => Some(Control)
    case "Shift" => Some(Shift)
    case "Alt" => Some(Alt)
    case "Backspace" => Some(BackSpace)
    case "ArrowUp" => Some(Up)
    case "ArrowDown" => Some(Down)
    case "ArrowLeft" => Some(Left)
    case "ArrowRight" => Some(Right)
    case _ => None
  }

  /** The abstract key for a browser key name; Dummy for a name the table
      does not list. */
  function KeyToVk(key: string): (vk: VirtualKey)
    ensures vk == Dummy <==> KeyTable(key).None?
    ensures vk != Dummy ==> KeyTable(key) == Some(vk) && KeyName(vk) == Some(key)
  {
    KeyTableRoundTrip(key, if KeyTable(key).Some? then KeyTable(key).value else Dummy);
    if KeyTable(key).None? then Dummy else KeyTable(key).value
  }

  /** The browser key name that produces `vk`, if any: the key table read
      backwards. */
  function KeyName(vk: VirtualKey): Option<string>
  {
    if KeyChar(vk).Some? then Some([KeyChar(vk).value]) else KeyLongName(vk)
  }

  /** CharKeyTable read backwards. */
  function KeyChar(vk: VirtualKey): Option<char>
  {
    if vk == Space then Some(' ')
    else if KeyLetter(vk).Some? then KeyLetter(vk)
    else KeyDigit(vk)
  }

  function KeyLetter(vk: VirtualKey): Option<char>
  {
    match vk
    case A => Some('a')
    case B => Some('b')
    case C => Some('c')
    case D => Some('d')
    case E => Some('e')
    case F => Some('f')
    case G => Some('g')
    case H => Some('h')
    case I => Some('i')
    case J => Some('j')
    case K => Some('k')
    case L => Some('l')
    case M => Some('m')
    case N => Some('n')
    case O => Some('o')
    case P => Some('p')
    case Q => Some('q')
    case R => Some('r')
    case S => Some('s')
    case T => Some('t')
    case U => Some('u')
    case V => Some('v')
    case W => Some('w')
    case X => Some('x')
    case Y => Some('y')
    case Z => Some('z')
    case _ => None
  }

  function KeyDigit(vk: VirtualKey): Option<char>
  {
    match vk
    case T0 => Some('0')
    case T1 => Some('1')
    case T2 => Some('2')
    case T3 => Some('3')
    case T4 => Some('4')
    case T5 => Some('5')
    case T6 => Some('6')
    case T7 => Some('7')
    case T8 => Some('8')
    case T9 => Some('9')
    case _ => None
  }

  /** NamedKeyTable read backwards. */
  function KeyLongName(vk: VirtualKey): Option<string>
  {
    match vk
    case Enter => Some("Enter")
    case Escape => Some("Escape")
    case Control => Some("Control")
    case Shift => Some("Shift")
    case Alt => Some("Alt")
    case BackSpace => Some("Backspace")
    case Up => Some("ArrowUp")
    case Down => Some("ArrowDown")
    case Left => Some("ArrowLeft")
    case Right => Some("ArrowRight")
    case _ => None
  }

  predicate IsMouseCode(vk: VirtualKey)
  {
    vk.MouseLeft? || vk.MouseMiddle? || vk.MouseRight? || vk.MouseBack? || vk.MouseNext? || vk.MouseMove?
  }

  predicate IsNumpadCode(vk: VirtualKey)
  {
    || vk.Num0? || vk.Num1? || vk.Num2? || vk.Num3? || vk.Num4?
    || vk.Num5? || vk.Num6? || vk.Num7? || vk.Num8? || vk.Num9?
  }

  /** A code of a key on the main keyboard. */
  predicate KeyboardCode(vk: VirtualKey)
  {
    vk != Dummy && !IsMouseCode(vk) && !IsNumpadCode(vk)
  }

  lemma LetterThenKeyLetter(c: char)
    ensures LetterKeyTable(c).Some? ==> KeyLetter(LetterKeyTable(c).value) == Some(c)
  {
  }

  lemma KeyLetterThenLetter(vk: VirtualKey)
    ensures KeyLetter(vk).Some? ==> LetterKeyTable(KeyLetter(vk).value) == Some(vk)
  {
  }

  lemma KeyLetterRange(vk: VirtualKey)
    ensures KeyLetter(vk).Some? ==> 'a' <= KeyLetter(vk).value <= 'z'
  {
  }

  lemma DigitThenKeyDigit(c: char)
    ensures DigitKeyTable(c).Some? ==> KeyDigit(DigitKeyTable(c).value) == Some(c)
  {
  }

  lemma KeyDigitThenDigit(vk: VirtualKey)
    ensures KeyDigit(vk).Some? ==> DigitKeyTable(KeyDigit(vk).value) == Some(vk)
  {
  }

  lemma KeyDigitRange(vk: VirtualKey)
    ensures KeyDigit(vk).Some? ==> '0' <= KeyDigit(vk).value <= '9'
  {
  }

  lemma NamedThenLongName(key: string)
    ensures NamedKeyTable(key).Some? ==> KeyLongName(NamedKeyTable(key).value) == Some(key)
  {
  }

  lemma LongNameThenNamed(vk: VirtualKey)
    ensures KeyLongName(vk).Some? ==> NamedKeyTable(KeyLongName(vk).value) == Some(vk)
  {
  }

  /** The groups of names do not overlap: a code has at most one of a
      letter, a digit and a longer name, and the space has none of them. */
  lemma LetterNotOtherName(vk: VirtualKey)
    ensures KeyLetter(vk).Some? ==> KeyDigit(vk).None? && KeyLongName(vk).None? && vk != Space
  {
  }

  lemma DigitNotOtherName(vk: VirtualKey)
    ensures KeyDigit(vk).Some? ==> KeyLongName(vk).None? && vk != Space
  {
  }

  /** The longer names are longer than one character, and the space has
      none. */
  lemma LongNamesAreLong(vk: VirtualKey)
    ensures KeyLongName(vk).Some? ==> |KeyLongName(vk).value| > 1 && vk != Space
  {
  }

  /** A code has a one-character name or a longer name, not both. */
  lemma {:induction false} NameKinds(vk: VirtualKey)
    ensures KeyChar(vk).Some? ==> KeyLongName(vk).None?
    ensures KeyLongName(vk).Some? ==> |KeyLongName(vk).value| > 1
  {
    LetterNotOtherName(vk);
    DigitNotOtherName(vk);
    LongNamesAreLong(vk);
  }

  lemma {:induction false} CharKeyRoundTrip(c: char, vk: VirtualKey)
    ensures CharKeyTable(c) == Some(vk) <==> KeyChar(vk) == Some(c)
  {
    KeyLetterRange(vk);
    KeyDigitRange(vk);
    LetterNotOtherName(vk);
    if c == ' ' {
    } else if 'a' <= c <= 'z' {
      LetterThenKeyLetter(c);
      KeyLetterThenLetter(vk);
    } else {
      DigitThenKeyDigit(c);
      KeyDigitThenDigit(vk);
    }
  }

  /** The key table and KeyName are inverse to each other. */
  lemma {:induction false} KeyTableRoundTrip(key: string, vk: VirtualKey)
    ensures KeyTable(key) == Some(vk) <==> KeyName(vk) == Some(key)
  {
    NameKinds(vk);
    if |key| == 1 {
      CharKeyRoundTrip(key[0], vk);
      assert key == [key[0]];
    } else {
      NamedThenLongName(key);
      LongNameThenNamed(vk);
    }
  }

  /** No two browser keys map to the same abstract key. */
  lemma {:induction false} KeyTableInjective(key1: string, key2: string)
    requires KeyTable(key1).Some? && KeyTable(key1) == KeyTable(key2)
    ensures key1 == key2
  {
    KeyTableRoundTrip(key1, KeyTable(key1).value);
    KeyTableRoundTrip(key2, KeyTable(key2).value);
  }

  lemma LetterCodes(c: char)
    ensures LetterKeyTable(c).Some? ==> KeyboardCode(LetterKeyTable(c).value)
  {
  }

  lemma DigitCodes(c: char)
    ensures DigitKeyTable(c).Some? ==> KeyboardCode(DigitKeyTable(c).value)
  {
  }

  lemma NamedCodes(key: string)
    ensures NamedKeyTable(key).Some? ==> KeyboardCode(NamedKeyTable(key).value)
  {
  }

  /** The key table yields keyboard codes only: never Dummy, a mouse code or
      a numeric-keypad code. */
  lemma {:induction false} KeyTableCodes(key: string)
    requires KeyTable(key).Some?
    ensures KeyTable(key).value != Dummy
    ensures !IsMouseCode(KeyTable(key).value) && !IsNumpadCode(KeyTable(key).value)
  {
    if |key| == 1 {
      LetterCodes(key[0]);
      DigitCodes(key[0]);
    } else {
      NamedCodes(key);
    }
  }

  /** Buttons 0 to 4 map, in order, to the left, middle, right, back and
      next buttons; every other button number is missing from the table. */
  lemma MouseButtonTableContents(button: int)
    ensures MouseButtonTable(button).Some? <==> 0 <= button <= 4
    ensures MouseButtonTable(button).Some? ==>
      MouseButtonTable(button).value == [MouseLeft, MouseMiddle, MouseRight, MouseBack, MouseNext][button]
  {
  }

  /** The event a button press becomes; None when the button is not in the
      table (the source raises a KeyError and hands nothing to the model). */
  function MouseDownParam(event: MouseEvent): Option<OperationParam>
  {
    match MouseButtonTable(event.button)
    case None => None
    case Some(vk) => Some(OperationParam(vk, Press))
  }

  function MouseUpParam(event: MouseEvent): Option<OperationParam>
  {
    match MouseButtonTable(event.button)
    case None => None
    case Some(vk) => Some(OperationParam(vk, Release))
  }

  function MouseMoveParam(event: MouseEvent): OperationParam
  {
    OperationParam(MouseMove, Press, Some(Position(event.x, event.y)))
  }

  function KeyDownParam(event: KeyboardEvent): OperationParam
  {
    OperationParam(KeyToVk(event.key), if event.repeat then Repeat else Press)
  }

  function KeyUpParam(event: KeyboardEvent): OperationParam
  {
    OperationParam(KeyToVk(event.key), Release)
  }

  /** How each mouse event becomes an abstract event: button events carry
      no position, are a press or a release of the button's table code and
      fail for an unknown button; a pointer move is a positioned MouseMove
      press. */
  lemma MouseEventTranslation(mouse: MouseEvent)
    ensures MouseDownParam(mouse).Some? <==> 0 <= mouse.button <= 4
    ensures MouseUpParam(mouse).Some? <==> 0 <= mouse.button <= 4
    ensures MouseDownParam(mouse).Some? ==>
      var p := MouseDownParam(mouse).value;
      && p.IsPress() && p.position == None && Some(p.code) == MouseButtonTable(mouse.button)
      && IsMouseCode(p.code) && p.code != MouseMove
    ensures MouseUpParam(mouse).Some? ==>
      var p := MouseUpParam(mouse).value;
      p.IsRelease() && p.position == None && Some(p.code) == MouseButtonTable(mouse.button)
    ensures MouseMoveParam(mouse).code == MouseMove && MouseMoveParam(mouse).IsPress()
    ensures MouseMoveParam(mouse).position == Some(Position(mouse.x, mouse.y))
  {
  }

  /** How each keyboard event becomes an abstract event: a key press is a
      Repeat when the browser flags it as auto-repeated and a Press
      otherwise; a key release is a Release; neither carries a position nor
      a mouse code. */
  lemma KeyEventTranslation(keyboard: KeyboardEvent)
    ensures KeyDownParam(keyboard).IsRepeat() <==> keyboard.repeat
    ensures KeyDownParam(keyboard).IsPress() <==> !keyboard.repeat
    ensures KeyUpParam(keyboard).IsRelease()
    ensures KeyDownParam(keyboard).position == None && KeyUpParam(keyboard).position == None
    ensures KeyDownParam(keyboard).code == KeyUpParam(keyboard).code == KeyToVk(keyboard.key)
    ensures !IsMouseCode(KeyToVk(keyboard.key))
  {
    if KeyTable(keyboard.key).Some? {
      KeyTableCodes(keyboard.key);
    }
  }

  /** Forwards translated browser events to the game model. */
  class GameController {
    const model: GameModel

    constructor (model: GameModel)
      ensures this.model == model
    {
      this.model := model;
    }

    /** Records the button as held; fails, changing nothing, for a button
        outside the table. */
    method MouseDown(event: MouseEvent) returns (ok: bool)
      modifies model, model.repository
      ensures ok <==> MouseButtonTable(event.button).Some?
      ensures ok ==> model.keys == old(model.keys)[MouseButtonTable(event.button).value := true]
      ensures !ok ==> model.keys == old(model.keys)
      ensures model.time == old(model.time) && model.mousePos == old(model.mousePos)
      ensures model.repository != null ==> model.repository.requests == old(model.repository.requests)
      ensures model.repository != null ==> model.repository.answer == old(model.repository.answer)
    {
      var param := MouseDownParam(event);
      if param.None? {
        return false;
      }
      MouseEventTranslation(event);
      model.Operate(param.value);
      ok := true;
    }

    /** Records the button as released; fails, changing nothing, for a
        button outside the table. */
    method MouseUp(event: MouseEvent) returns (ok: bool)
      modifies model, model.repository
      ensures ok <==> MouseButtonTable(event.button).Some?
      ensures ok ==> model.keys == old(model.keys)[MouseButtonTable(event.button).value := false]
      ensures !ok ==> model.keys == old(model.keys)
      ensures model.time == old(model.time) && model.mousePos == old(model.mousePos)
      ensures model.repository != null ==> model.repository.requests == old(model.repository.requests)
      ensures model.repository != null ==> model.repository.answer == old(model.repository.answer)
    {
      var param := MouseUpParam(event);
      if param.None? {
        return false;
      }
      MouseEventTranslation(event);
      model.Operate(param.value);
      ok := true;
    }

    /** Records the pointer position and nothing else. */
    method MouseMoved(event: MouseEvent)
      modifies model, model.repository
      ensures model.mousePos == Some(Position(event.x, event.y))
      ensures model.keys == old(model.keys) && model.time == old(model.time)
      ensures model.repository != null ==> model.repository.requests == old(model.repository.requests)
      ensures model.repository != null ==> model.repository.answer == old(model.repository.answer)
    {
      model.Operate(MouseMoveParam(event));
    }

    /** Records the key as held unless the press is an auto-repeat, which
        records it as not held; a fresh press of S or L saves or loads. */
    method KeyDown(event: KeyboardEvent)
      modifies model, model.repository
      ensures model.keys == old(model.keys)[KeyToVk(event.key) := !event.repeat]
      ensures model.mousePos == old(model.mousePos)
      ensures model.repository != null ==>
        model.repository.requests == old(model.repository.requests) + StorageRequests(KeyDownParam(event), old(model.time))
      ensures model.time == if KeyToVk(event.key) == L && !event.repeat && model.repository != null
                            then old(model.repository.answer) else old(model.time)
      ensures model.repository != null ==> model.repository.answer == old(model.repository.answer)
    {
      KeyEventTranslation(event);
      model.Operate(KeyDownParam(event));
    }

    /** Records the key as released. */
    method KeyUp(event: KeyboardEvent)
      modifies model, model.repository
      ensures model.keys == old(model.keys)[KeyToVk(event.key) := false]
      ensures model.mousePos == old(model.mousePos) && model.time == old(model.time)
      ensures model.repository != null ==> model.repository.requests == old(model.repository.requests)
      ensures model.repository != null ==> model.repository.answer == old(model.repository.answer)
    {
      KeyEventTranslation(event);
      model.Operate(KeyUpParam(event));
    }
  }
}
