/**
 * The text `setMessage` assigns to the component's error message: each
 * failing validator key is looked up in the message table, the results are
 * joined with a single space, and a generic text replaces the join only when
 * the join is empty. A key with no table entry yields `undefined`, which
 * `join` renders as the empty string, so unmapped keys are not dropped but
 * leave their separators behind.
 */
module Messages {
  import opened Wrappers
  import opened Validators

  /** The component's validation message table. */
  const MESSAGES: map<string, string> := map[
    "required" := "Please enter your email address.",
    "email" := "Please enter a valid email address."
  ]

  /** The separator `setMessage` joins with. */
  const SEPARATOR := " "

  /** `validationMessages[key]` as `join` renders it: an unmapped key gives
      `undefined`, rendered as the empty string, and every mapped key gives
      a non-empty message. */
  function MessageFor(key: string): (m: string)
    ensures m != "" <==> key in MESSAGES
  {
    if key in MESSAGES then MESSAGES[key] else ""
  }

  /** `keys.map(key => validationMessages[key])`, position by position. */
  function MessagesFor(keys: ErrorKeys): (ms: seq<string>)
    ensures |ms| == |keys|
    ensures forall i :: 0 <= i < |keys| ==> ms[i] == MessageFor(keys[i])
  {
    if keys == [] then [] else [MessageFor(keys[0])] + MessagesFor(keys[1..])
  }

  /** `parts.join(sep)`: the parts in order with `sep` between neighbours. */
  function Join(parts: seq<string>, sep: string): string
  {
    if |parts| == 0 then ""
    else if |parts| == 1 then parts[0]
    else parts[0] + sep + Join(parts[1..], sep)
  }

  /** Sum of the lengths of some strings. */
  function TotalLength(parts: seq<string>): nat
  {
    if parts == [] then 0 else |parts[0]| + TotalLength(parts[1..])
  }

  /** `n` copies of a string, back to back. */
  function Repeat(s: string, n: nat): string
  {
    if n == 0 then "" else s + Repeat(s, n - 1)
  }

  /** The length of a join is the total length of its parts plus one
      separator for each pair of neighbours. */
  lemma {:induction false} JoinLength(parts: seq<string>, sep: string)
    requires |parts| > 0
    ensures |Join(parts, sep)| == TotalLength(parts) + (|parts| - 1) * |sep|
  {
    if |parts| > 1 {
      JoinLength(parts[1..], sep);
    }
  }

  /** Joining one more part extends the join by a separator and that part:
      the join keeps its parts, in order, with the separator between
      neighbours. */
  lemma {:induction false} JoinSnoc(parts: seq<string>, p: string, sep: string)
    requires |parts| > 0
    ensures Join(parts + [p], sep) == Join(parts, sep) + sep + p
  {
    if |parts| > 1 {
      assert (parts + [p])[1..] == parts[1..] + [p];
      JoinSnoc(parts[1..], p, sep);
    }
  }

  /** With a non-empty separator the join is empty exactly when there is no
      part, or a single part that is itself empty. */
  lemma JoinIsEmpty(parts: seq<string>, sep: string)
    requires sep != ""
    ensures Join(parts, sep) == "" <==> |parts| == 0 || (|parts| == 1 && parts[0] == "")
  {
  }

  /** Joining empty parts leaves only the separators between them. */
  lemma {:induction false} JoinOfEmptyParts(parts: seq<string>, sep: string)
    requires |parts| > 0
    requires forall i :: 0 <= i < |parts| ==> parts[i] == ""
    ensures Join(parts, sep) == Repeat(sep, |parts| - 1)
  {
    if |parts| > 1 {
      JoinOfEmptyParts(parts[1..], sep);
    }
  }

  /** The generic text used when the joined messages are empty. */
  function Fallback(controlName: string): string
  {
    "Invalid " + controlName + " value"
  }

  /** The text for a control that has been interacted with and carries the
      error keys `keys`: the space-join of the keys' messages, or the
      generic text if that join is empty. The text is never empty. */
  function ErrorText(keys: ErrorKeys, controlName: string): (m: string)
    ensures m != ""
  {
    var joined := Join(MessagesFor(keys), SEPARATOR);
    if joined == "" then Fallback(controlName) else joined
  }

  /** The generic text appears exactly when there are no keys, or a single
      key that has no table entry: two or more keys never produce it, even
      when none of them is mapped. */
  lemma FallbackExactly(keys: ErrorKeys, controlName: string)
    ensures ErrorText(keys, controlName) == Fallback(controlName)
            <==> |keys| == 0 || (|keys| == 1 && keys[0] !in MESSAGES)
  {
    var parts := MessagesFor(keys);
    JoinIsEmpty(parts, SEPARATOR);
    if |keys| >= 2 {
      // The join starts with a message's 'P' or with the separator, never
      // with the 'I' of the generic text.
      var joined := Join(parts, SEPARATOR);
      assert joined == parts[0] + SEPARATOR + Join(parts[1..], SEPARATOR);
      if parts[0] == "" {
        assert joined[0] == ' ';
      } else {
        assert keys[0] in MESSAGES;
        assert joined[0] == parts[0][0] == 'P';
      }
      assert Fallback(controlName)[0] == 'I';
    }
  }

  /** Keys none of which is mapped: one gives the generic text, `n` of them
      give `n - 1` spaces. */
  lemma UnmappedKeys(keys: ErrorKeys, controlName: string)
    requires |keys| > 0
    requires forall i :: 0 <= i < |keys| ==> keys[i] !in MESSAGES
    ensures |keys| == 1 ==> ErrorText(keys, controlName) == Fallback(controlName)
    ensures |keys| > 1 ==> ErrorText(keys, controlName) == Repeat(SEPARATOR, |keys| - 1)
  {
    var parts := MessagesFor(keys);
    JoinOfEmptyParts(parts, SEPARATOR);
    if |keys| > 1 {
      JoinIsEmpty(parts, SEPARATOR);
    }
  }

  /** The `required` key followed by any unmapped key keeps the required
      message and gains a trailing space; it does not fall back. */
  lemma MappedThenUnmapped(k: string, controlName: string)
    requires k !in MESSAGES
    ensures ErrorText(["required", k], controlName) == MESSAGES["required"] + " "
  {
    var parts := MessagesFor(["required", k]);
    assert parts == ["Please enter your email address.", ""];
    assert Join(parts, SEPARATOR) == parts[0] + SEPARATOR + Join(parts[1..], SEPARATOR);
  }

  /** Appending an unmapped key to keys whose messages already join to some
      text adds only a separator: the key's own message is dropped, and the
      generic text is not used. */
  lemma AppendUnmappedKey(keys: ErrorKeys, k: string, controlName: string)
    requires Join(MessagesFor(keys), SEPARATOR) != ""
    requires k !in MESSAGES
    ensures ErrorText(keys + [k], controlName) == ErrorText(keys, controlName) + SEPARATOR
  {
    var parts := MessagesFor(keys);
    assert MessagesFor(keys + [k]) == parts + [""];
    JoinSnoc(parts, "", SEPARATOR);
  }

  /** The error message `setMessage` leaves behind: empty for a control that
      is neither touched nor dirty or that has no error object, and
      otherwise the error text of its keys, which is never empty. */
  function DisplayedMessage(c: Control, controlName: string): (m: string)
    ensures m == "" <==> !(c.touched || c.Dirty()) || c.errors.None?
    ensures (c.touched || c.Dirty()) && c.errors.Some? ==> m == ErrorText(c.errors.value, controlName)
  {
    if (c.touched || c.Dirty()) && c.errors.Some? then ErrorText(c.errors.value, controlName) else ""
  }
}
