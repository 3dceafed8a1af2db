/** The type-ahead input (components/ui/combobox.jsx): the options whose
    label contains the typed text, ignoring case, and the transitions of the
    input text and of the popup on select, on typing, on focus and when the
    owner changes the value. */
module Combobox {
  import opened Wrappers
  import opened Text

  /** One option: `value` keys it, `labelText` (the `label` field) is shown and reported. */
  datatype Choice = Choice(value: string, labelText: string)

  /** The option is shown for the typed text `q`. */
  predicate Shows(opt: Choice, q: string) {
    ContainsIgnoringCase(opt.labelText, q)
  }

  /** `options.filter(opt => opt.labelText.toLowerCase().includes(q.toLowerCase()))`:
      exactly the options that show. */
  function Filtered(options: seq<Choice>, q: string): (r: seq<Choice>)
    ensures |r| <= |options|
    ensures forall o :: o in r <==> o in options && Shows(o, q)
  {
    if options == [] then []
    else (if Shows(options[0], q) then [options[0]] else []) + Filtered(options[1..], q)
  }

  /** Each option that shows is listed as often as it occurs, the others
      not at all. */
  lemma {:induction false} FilteredCounts(options: seq<Choice>, q: string, o: Choice)
    ensures multiset(Filtered(options, q))[o] == if Shows(o, q) then multiset(options)[o] else 0
  {
    if options != [] {
      assert options == [options[0]] + options[1..];
      FilteredCounts(options[1..], q, o);
    }
  }

  /** Filtering keeps the options in their order: filtering a concatenation
      is concatenating the filtered parts. */
  lemma {:induction false} FilteredAppend(a: seq<Choice>, b: seq<Choice>, q: string)
    ensures Filtered(a + b, q) == Filtered(a, q) + Filtered(b, q)
  {
    if a != [] {
      var head := if Shows(a[0], q) then [a[0]] else [];
      assert (a + b)[0] == a[0] && (a + b)[1..] == a[1..] + b;
      assert Filtered(a + b, q) == head + Filtered(a[1..] + b, q);
      FilteredAppend(a[1..], b, q);
      assert Filtered(a, q) == head + Filtered(a[1..], q);
    } else {
      assert a + b == b;
    }
  }

  /** An empty text shows every option. */
  lemma {:induction false} FilteredEmpty(options: seq<Choice>)
    ensures Filtered(options, "") == options
  {
    if options != [] {
      assert Lower("") == "";
      ContainsTrivial(Lower(options[0].labelText));
      FilteredEmpty(options[1..]);
    }
  }

  /** An option is marked (highlighted and checked) when its label equals
      the text, ignoring case. */
  predicate Marked(opt: Choice, q: string) {
    Lower(q) == Lower(opt.labelText)
  }

  /** A marked option is always among the options shown. */
  lemma MarkedIsShown(options: seq<Choice>, opt: Choice, q: string)
    requires opt in options && Marked(opt, q)
    ensures opt in Filtered(options, q)
  {
    ContainsTrivial(Lower(opt.labelText));
  }

  /** The combobox: its options and value come from its owner; it keeps the
      input text and whether the popup is open, and reports every new text
      through `onChange`. */
  class ComboboxState {
    const options: seq<Choice>
    var inputValue: string
    var open: bool
    /** The texts passed to `onChange`, oldest first. */
    var reported: seq<string>

    /** The popup starts closed and the text starts as `value || ""`. */
    constructor (options: seq<Choice>, value: Option<string>)
      ensures this.options == options
      ensures inputValue == value.GetOr("") && !open && reported == []
    {
      this.options := options;
      inputValue := value.GetOr("");
      open := false;
      reported := [];
    }

    /** The options listed in the popup. */
    function Shown(): seq<Choice>
      reads this
    {
      Filtered(options, inputValue)
    }

    /** The effect on a new `value`: the text becomes `value || ""`. */
    method SyncValue(value: Option<string>)
      modifies this`inputValue
      ensures inputValue == value.GetOr("")
    {
      inputValue := value.GetOr("");
    }

    /** handleSelect: the text becomes the option's label, the label is
        reported and the popup closes. */
    method Select(opt: Choice)
      modifies this`inputValue, this`reported, this`open
      ensures inputValue == opt.labelText && !open
      ensures reported == old(reported) + [opt.labelText]
      ensures opt in options ==> opt in Shown() && Marked(opt, inputValue)
    {
      inputValue := opt.labelText;
      reported := reported + [opt.labelText];
      open := false;
      if opt in options {
        MarkedIsShown(options, opt, inputValue);
      }
    }

    /** handleChange: the text becomes what was typed, it is reported, and
        the popup is opened when it was closed. */
    method Change(typed: string)
      modifies this`inputValue, this`reported, this`open
      ensures inputValue == typed && open
      ensures reported == old(reported) + [typed]
    {
      inputValue := typed;
      reported := reported + [typed];
      if !open {
        open := true;
      }
    }

    /** Focusing the input opens the popup. */
    method Focus()
      modifies this`open
      ensures open
    {
      open := true;
    }
  }
}
