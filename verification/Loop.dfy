/** The part of a GLib main loop the backends use: the sources that are attached to it. */
module Loop {

  class MainLoop {
    var sources: set<nat>
    var next: nat

    constructor ()
      ensures sources == {} && next == 1
    {
      sources, next := {}, 1;
    }

    method Attach() returns (source: nat)
      modifies this
      ensures source == old(next) && next == old(next) + 1 && sources == old(sources) + {source}
    {
      source := next;
      sources, next := sources + {next}, next + 1;
    }

    method Remove(source: nat)
      modifies this`sources
      ensures sources == old(sources) - {source}
    {
      sources := sources - {source};
    }
  }
}
