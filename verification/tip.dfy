/** The "tip of the day" shown by the application: a title and its content. */
module Tips {

  class Tip {
    var title: string
    var content: string

    /** A new tip has an empty title and empty content. */
    constructor ()
      ensures title == "" && content == ""
    {
      title := "";
      content := "";
    }

    method Title() returns (t: string)
      ensures t == title
    {
      t := title;
    }

    method Content() returns (c: string)
      ensures c == content
    {
      c := content;
    }

    /** Replaces the title and leaves the content alone. */
    method SetTitle(t: string)
      modifies this
      ensures title == t && content == old(content)
    {
      title := t;
    }

    /** Replaces the content and leaves the title alone. */
    method SetContent(c: string)
      modifies this
      ensures content == c && title == old(title)
    {
      content := c;
    }
  }

  /** Setting a title and a content and reading them back returns what was set, in either order. */
  method SetThenRead(t: string, c: string) returns (readTitle: string, readContent: string)
    ensures readTitle == t && readContent == c
  {
    var tip := new Tip();
    tip.SetTitle(t);
    tip.SetContent(c);
    readTitle := tip.Title();
    readContent := tip.Content();
  }
}
