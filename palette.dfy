/**
 * The palette window's data: the ordered list of saved colours, the rows the
 * window displays for them, and the operations on the list (add, clear with
 * confirmation, export as JSON or CSV).
 */
module Palette {
  import opened Wrappers
  import opened Colors
  import opened Export

  /**
   * What an export attempt ends in. `RefusedEmpty`: the palette was empty and
   * nothing was asked or written. `DialogCancelled`: the save dialog returned
   * no file name. `WriteFailed`: opening or writing the file raised, with that
   * message. `Exported`: the document was written to `path`.
   */
  datatype ExportOutcome<D> =
    | RefusedEmpty
    | DialogCancelled
    | WriteFailed(path: string, message: string)
    | Exported(path: string, document: D)

  class PaletteWindow {
    /** The saved colours, oldest first. */
    var colors: seq<Color>
    /** The hex label of each row in the scroll area, oldest first. */
    var entries: seq<string>

    /** Each saved colour has exactly one displayed row, labelled with its hex code. */
    ghost predicate Valid()
      reads this
    {
      |entries| == |colors| &&
      forall i :: 0 <= i < |colors| ==> entries[i] == HexName(colors[i])
    }

    constructor ()
      ensures Valid() && colors == []
    {
      colors := [];
      entries := [];
    }

    /**
     * Saves a colour at the end of the palette and adds its row. An invalid
     * colour (`None`) is refused and changes nothing. Duplicates are kept.
     */
    method AddColor(color: Option<Color>)
      requires Valid()
      modifies this
      ensures Valid()
      ensures color.None? ==> colors == old(colors)
      ensures color.Some? ==> colors == old(colors) + [color.value]
    {
      if color.None? {
        return;
      }
      var hexCode := HexName(color.value);
      colors := colors + [color.value];
      entries := entries + [hexCode];
    }

    /**
     * Empties the palette after confirmation. On an empty palette nothing is
     * asked (`asked` is false) and nothing changes; otherwise the palette is
     * emptied exactly when the reply is Yes (`confirmed`).
     */
    method ClearPalette(confirmed: bool) returns (asked: bool)
      requires Valid()
      modifies this
      ensures Valid()
      ensures asked <==> old(colors) != []
      ensures colors == if asked && confirmed then [] else old(colors)
      ensures asked && confirmed ==> entries == []
      ensures !(asked && confirmed) ==> entries == old(entries)
    {
      if colors == [] {
        return false;
      }
      asked := true;
      if !confirmed {
        return;
      }
      colors := [];
      while |entries| > 0
        invariant colors == []
        decreases |entries|
      {
        entries := entries[1..];
      }
    }

    /** The export menu opens only on a non-empty palette; otherwise a warning is shown instead. */
    method ShowExportMenu() returns (shown: bool)
      ensures shown <==> colors != []
    {
      shown := colors != [];
    }

    /**
     * Exports the palette as the JSON document `{"colors": [...]}`. `filename`
     * is the save dialog's answer ("" when cancelled) and `writeError` the
     * exception raised by opening or writing the file, if any. The palette
     * itself is never changed.
     */
    method ExportAsJson(filename: string, writeError: Option<string>)
      returns (out: ExportOutcome<JsonDocument>)
      ensures colors == [] <==> out == RefusedEmpty
      ensures colors != [] && filename == "" <==> out == DialogCancelled
      ensures out.WriteFailed? <==> colors != [] && filename != "" && writeError.Some?
      ensures out.WriteFailed? ==> out == WriteFailed(filename, writeError.value)
      ensures out.Exported? ==> out.path == filename
      ensures out.Exported? ==> out.document == JsonDocument(JsonColors(colors))
      ensures out.Exported? ==> ParseJsonColors(out.document.colors) == Some(colors)
    {
      if colors == [] {
        return RefusedEmpty;
      }
      if filename == "" {
        return DialogCancelled;
      }
      var colorData := JsonColors(colors);
      if writeError.Some? {
        return WriteFailed(filename, writeError.value);
      }
      JsonRoundTrip(colors);
      out := Exported(filename, JsonDocument(colorData));
    }

    /**
     * Exports the palette as a CSV table: the header row, then one row per
     * colour, written in palette order by a loop. Arguments and outcome as
     * for `ExportAsJson`.
     */
    method ExportAsCsv(filename: string, writeError: Option<string>)
      returns (out: ExportOutcome<seq<Row>>)
      ensures colors == [] <==> out == RefusedEmpty
      ensures colors != [] && filename == "" <==> out == DialogCancelled
      ensures out.WriteFailed? <==> colors != [] && filename != "" && writeError.Some?
      ensures out.WriteFailed? ==> out == WriteFailed(filename, writeError.value)
      ensures out.Exported? ==> out.path == filename && out.document == CsvTable(colors)
    {
      if colors == [] {
        return RefusedEmpty;
      }
      if filename == "" {
        return DialogCancelled;
      }
      if writeError.Some? {
        return WriteFailed(filename, writeError.value);
      }
      var rows := [Header];
      for i := 0 to |colors|
        invariant |rows| == i + 1 && rows[0] == Header
        invariant forall k :: 0 <= k < i ==> rows[k + 1] == CsvRow(colors[k])
      {
        rows := rows + [CsvRow(colors[i])];
      }
      out := Exported(filename, rows);
    }
  }
}
