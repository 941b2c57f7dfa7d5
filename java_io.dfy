/**
 * The piece of `java.io` the map editor writes its files through: a
 * `PrintWriter` over a growing text. Lines end with '\n'.
 */
module JavaIO {
  class PrintWriter {
    var text: string

    constructor ()
      ensures text == ""
    {
      text := "";
    }

    /** `print(s)`: the text s, with no line end. */
    method Print(s: string)
      modifies this
      ensures text == old(text) + s
    {
      text := text + s;
    }

    /** `println(s)`: the text s and a line end. */
    method Println(s: string)
      modifies this
      ensures text == old(text) + s + "\n"
    {
      text := text + s + "\n";
    }
  }
}
