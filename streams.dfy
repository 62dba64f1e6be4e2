/** The process's standard streams, seen as the lines printed to each. */
module Streams {

  class Console {
    /** Lines printed to System.out. */
    var out: seq<string>
    /** Lines printed to System.err. */
    var err: seq<string>

    constructor ()
      ensures out == [] && err == []
    {
      out, err := [], [];
    }

    /** System.out.println(line). */
    method PrintlnOut(line: string)
      modifies this
      ensures out == old(out) + [line] && err == old(err)
    {
      out := out + [line];
    }

    /** System.err.println(line). */
    method PrintlnErr(line: string)
      modifies this
      ensures err == old(err) + [line] && out == old(out)
    {
      err := err + [line];
    }

    /** Lines a foreign formatter (such as Throwable.printStackTrace) prints to System.err. */
    method PrintErrLines(lines: seq<string>)
      modifies this
      ensures err == old(err) + lines && out == old(out)
    {
      err := err + lines;
    }
  }
}
