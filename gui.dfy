/** `AlarmWindow` (mqtt_stat/GUI/__init__.py): a window that is built at most
    once. The PySimpleGUI elements are plain values recording the arguments
    they are created with. */
module Gui {
  import opened Wrappers
  import opened GuiErrors

  datatype Element =
    | Text(text: string, justification: string)
    | Button(buttonText: string, tooltip: string, bindReturnKey: bool, focus: bool, key: string)

  /** A layout: rows of elements. */
  type Layout = seq<seq<Element>>

  const StopButtonKey: string := "STOP_BUTTON"

  /** The message the `layout` property raises with before the window is built. */
  const LayoutNotBuiltMessage: string :=
    "The window's layout must be built before it can be returned! Try `self.build()`"

  /** The message `build` raises with when the window is already built. */
  const BuildTwiceMessage: string := "The window has already been built!"

  /** The layout `build` stores: a centred title row, then the stop button. */
  function AlarmLayout(): (l: Layout)
    ensures |l| == 2 && |l[0]| == 1 && |l[1]| == 1
    ensures l[0][0].Text? && l[0][0].text == "Alarm Controller"
    ensures l[1][0].Button? && l[1][0].key == StopButtonKey && l[1][0].bindReturnKey
  {
    [
      [Text("Alarm Controller", "center")],
      [Button("Stop Alarm", "Stop the associated alarm.", true, true, StopButtonKey)]
    ]
  }

  class AlarmWindow {
    var built: bool
    var layout: Option<Layout>
    const autoBuild: bool
    const autoRun: bool

    /** A layout is stored exactly when the window is built. */
    ghost predicate Valid()
      reads this
    {
      built <==> layout.Some?
    }

    /** `AlarmWindow(auto_build, auto_run)`: the flags are stored, and the
        window is not built even when `auto_build` is set. */
    constructor (autoBuild: bool, autoRun: bool)
      ensures Valid() && !built
      ensures this.autoBuild == autoBuild && this.autoRun == autoRun
    {
      built := false;
      layout := None;
      this.autoBuild := autoBuild;
      this.autoRun := autoRun;
    }

    /** The `layout` property: the stored layout once built, and
        `WindowNotBuiltError` before. Reading changes nothing, so every read
        of a built window returns the same layout. */
    method GetLayout() returns (r: Result<Layout, GuiError>)
      requires Valid()
      ensures built ==> r.Ok? && Some(r.value) == layout
      ensures !built ==> r.Err? && r.error.WindowNotBuiltError?
      ensures !built ==> r.error.message == Prefix + " " + LayoutNotBuiltMessage
    {
      if built {
        r := Ok(layout.value);
      } else {
        r := Err(NotBuilt(Some(LayoutNotBuiltMessage)));
      }
    }

    /** `build()`: on an unbuilt window stores the alarm layout and marks it
        built; on a built one raises `WindowAlreadyBuiltError` and changes
        nothing. Either way the window is built afterwards. */
    method Build() returns (r: Outcome<GuiError>)
      requires Valid()
      modifies this
      ensures Valid() && built
      ensures r.Pass? <==> !old(built)
      ensures r.Pass? ==> layout == Some(AlarmLayout())
      ensures r.Fail? ==> layout == old(layout)
      ensures r.Fail? ==> r.error == WindowAlreadyBuiltError(Prefix + " " + BuildTwiceMessage)
    {
      if built {
        return Fail(AlreadyBuilt(Some(BuildTwiceMessage)));
      }
      layout := Some(AlarmLayout());
      built := true;
      r := Pass;
    }
  }

  /** A client of the class: a fresh window refuses its layout, the first build
      succeeds, the second fails, and the layout read afterwards is the first
      build's. */
  method BuildOnce(autoBuild: bool, autoRun: bool) returns (w: AlarmWindow)
    ensures w.built && w.layout == Some(AlarmLayout())
    ensures w.autoBuild == autoBuild && w.autoRun == autoRun
  {
    w := new AlarmWindow(autoBuild, autoRun);
    var before := w.GetLayout();
    assert before.Err?;
    var first := w.Build();
    assert first.Pass?;
    var second := w.Build();
    assert second.Fail?;
    var after := w.GetLayout();
    assert after == Ok(AlarmLayout());
  }
}
