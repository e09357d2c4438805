/**
 * src/component/info.rs: the bookkeeping record of a component, its id
 * and the ids of its input and output signals.
 */
module Info {

  class ComponentInfo {
    var id: nat
    var input: seq<nat>
    var output: seq<nat>

    /** `ComponentInfo::new`: stores the id and copies of both id lists. */
    constructor New(id: nat, input: seq<nat>, output: seq<nat>)
      ensures this.id == id && this.input == input && this.output == output
    {
      this.id := id;
      this.input := input;
      this.output := output;
    }

    /** `Default for ComponentInfo`: id 0 and no inputs or outputs. */
    constructor Default()
      ensures id == 0 && input == [] && output == []
    {
      id := 0;
      input := [];
      output := [];
    }

    function GetId(): (r: nat)
      reads this
      ensures r == id
    {
      id
    }

    function GetInput(): (r: seq<nat>)
      reads this
      ensures r == input
    {
      input
    }

    function GetOutput(): (r: seq<nat>)
      reads this
      ensures r == output
    {
      output
    }

    /** `set_id`: the id is replaced; both lists are unchanged. */
    method SetId(id: nat)
      modifies this
      ensures GetId() == id
      ensures GetInput() == old(GetInput()) && GetOutput() == old(GetOutput())
    {
      this.id := id;
    }

    /** `set_input`: the input list is replaced; the id and outputs are unchanged. */
    method SetInput(input: seq<nat>)
      modifies this
      ensures GetInput() == input
      ensures GetId() == old(GetId()) && GetOutput() == old(GetOutput())
    {
      this.input := input;
    }

    /** `set_output`: the output list is replaced; the id and inputs are unchanged. */
    method SetOutput(output: seq<nat>)
      modifies this
      ensures GetOutput() == output
      ensures GetId() == old(GetId()) && GetInput() == old(GetInput())
    {
      this.output := output;
    }
  }
}
