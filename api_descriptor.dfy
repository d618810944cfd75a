/** The `API` descriptor of the qq adapter's `utils.py`, which declares
    each API method on the bot class: reading it from the class gives the
    descriptor, reading it from a bot gives that bot's `call_api` bound to
    the attribute name the descriptor was assigned to. */
module ApiDescriptor {
  import opened Wrappers

  /** What an attribute read yields: the descriptor itself, or
      `partial(inst.call_api, api)`. */
  datatype Access<B> = Descriptor | BoundCall(inst: B, api: string)

  class Api {
    /** The attribute name, set by `__set_name__` when the owning class is
        created. */
    var name: string

    constructor(name: string)
      ensures this.name == name
    {
      this.name := name;
    }

    /** `__set_name__`. */
    method SetName(n: string)
      modifies this
      ensures name == n
    {
      name := n;
    }

    /** `__get__`: class access (no instance) gives the descriptor;
        instance access routes through `call_api` under the attribute's
        own name, not through the wrapped function. */
    function Get<B>(obj: Option<B>): (r: Access<B>)
      reads this
      ensures r == Descriptor <==> obj.None?
      ensures r.BoundCall? ==> r.inst == obj.value && r.api == name
    {
      if obj.None? then Descriptor else BoundCall(obj.value, name)
    }
  }
}
