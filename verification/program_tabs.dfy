/**
 * The program tabs: a row of buttons, each naming a program key, and one
 * content area showing the details of a program. Clicking a button makes it
 * the only active one and shows its program, if the dataset has one by that key.
 */
module ProgramTabs {
  import opened Wrappers
  import opened AcmeData
  import opened ClassFlags

  /** The program shown before any click. */
  const INITIAL_PROGRAM: string := "nexus"

  class TabBar {
    /** The `data-program` key of each `.tab-button`, in document order. */
    const programKeys: seq<string>
    /** Whether each button carries the class `active`. */
    const active: array<bool>
    /** The program whose details the content area shows; None while it still holds the page's own markup. */
    var content: Option<Program>

    ghost predicate Valid()
      reads this
    {
      active.Length == |programKeys|
    }

    /** `init`: wires the buttons and, when there is at least one, shows the initial program. */
    constructor (programKeys: seq<string>, initiallyActive: seq<bool>)
      requires |initiallyActive| == |programKeys|
      ensures Valid() && fresh(active)
      ensures this.programKeys == programKeys && active[..] == initiallyActive
      ensures content == (if |programKeys| > 0 then FindProgram(Programs, INITIAL_PROGRAM) else None)
    {
      this.programKeys := programKeys;
      active := new bool[|initiallyActive|](i => if 0 <= i < |initiallyActive| then initiallyActive[i] else false);
      content := None;
      new;
      if |programKeys| > 0 {
        InitialProgramExists();
        RenderProgramContent(INITIAL_PROGRAM);
      }
    }

    /** Shows the program stored under `key`; a key the dataset does not have leaves the content as it was. */
    method RenderProgramContent(key: string)
      modifies this`content
      ensures FindProgram(Programs, key).Some? ==> content == FindProgram(Programs, key)
      ensures FindProgram(Programs, key).None? ==> content == old(content)
    {
      var program := FindProgram(Programs, key);
      if program.None? {
        return;
      }
      content := program;
    }

    /** A click on button `i`: clear `active` on every button, set it on this one, show its program. */
    method Click(i: nat)
      requires Valid() && i < active.Length
      modifies this`content, active
      ensures Valid()
      ensures forall j :: 0 <= j < active.Length ==> active[j] == (j == i)
      ensures CountActive(active[..]) == 1
      ensures FindProgram(Programs, programKeys[i]).Some? ==> content == FindProgram(Programs, programKeys[i])
      ensures FindProgram(Programs, programKeys[i]).None? ==> content == old(content)
    {
      var j := 0;
      while j < active.Length
        modifies active
        invariant 0 <= j <= active.Length
        invariant forall k :: 0 <= k < j ==> !active[k]
      {
        active[j] := false;
        j := j + 1;
      }
      active[i] := true;
      ExactlyOneActive(active[..], i);
      RenderProgramContent(programKeys[i]);
    }
  }

  /** A tab bar built from the shipped buttons shows the Nexus program first. */
  method InitialContent(programKeys: seq<string>) returns (shown: Option<Program>)
    requires |programKeys| > 0
    ensures shown == Some(Programs[0].program) && shown.value.programName == "Nexus Grant Program"
  {
    var flags := seq(|programKeys|, i => i == 0);
    var bar := new TabBar(programKeys, flags);
    InitialProgramExists();
    shown := bar.content;
  }
}
