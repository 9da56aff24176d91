/**
 * The module-level `elements` record of index.js (lines 6-10) and the
 * functions that update it in place: `createElements` (45-52),
 * `drawBatteryLevel` (90-122), `applyCSS` (125-143), and the timer that
 * `drawBatteryLevel` schedules (121), as a pending step applied separately.
 */
module PowerBar {
  import opened Wrappers
  import opened Battery
  import opened TimeFormat
  import opened Classify
  import opened StyleSheet
  import opened Dom

  const LevelOpen := "<span class='level'>"
  const LevelClose := "%</span><time>"
  const TimeClose := "</time>"

  /**
   * The markup `drawBatteryLevel` writes into the label (index.js:114); each
   * piece can be read back at its offset.
   */
  function LabelMarkup(levelText: string, time: string, timeLabel: string): (html: string)
    ensures var n := |LevelOpen| + |levelText|;
      |html| == n + |LevelClose| + |time| + |timeLabel| + |TimeClose| &&
      html[..|LevelOpen|] == LevelOpen && html[|LevelOpen|..n] == levelText &&
      html[n..n + |LevelClose|] == LevelClose &&
      html[n + |LevelClose|..|html| - |TimeClose|] == time + timeLabel &&
      html[|html| - |TimeClose|..] == TimeClose
  {
    LevelOpen + levelText + LevelClose + time + timeLabel + TimeClose
  }

  /** The state the render step computes for a snapshot (index.js:108-110). */
  function StateOf(battery: BatterySnapshot): (state: Option<StateTag>)
    ensures state.None? <==> BatteryLevel(battery) <= -1.0
    ensures state == Some(Critical) <==> -1.0 < BatteryLevel(battery) < 15.0
    ensures state == Some(LowPower) <==> 15.0 <= BatteryLevel(battery) < 40.0
    ensures state == Some(Charged) <==> 40.0 <= BatteryLevel(battery) < 95.0
    ensures state == Some(Full) <==> 95.0 <= BatteryLevel(battery)
  {
    DescendingScan(Trunc(BatteryLevel(battery)))
  }

  lemma OnlyMember<T>(s: set<T>, x: T)
    requires x in s && |s| <= 1
    ensures s == {x}
  {
    assert |s - {x}| == |s| - 1;
    assert s - {x} == {};
  }

  class Elements {
    var container: Element?
    var progress: Element?
    var labelNode: Element?    // `elements.label`
    /** Timers set by `drawBatteryLevel` that have not yet removed `updated` from the label. */
    var pendingClears: nat

    /** The three nodes exist and are distinct. */
    predicate Created()
      reads this
    {
      container != null && progress != null && labelNode != null &&
      container != progress && container != labelNode && progress != labelNode
    }

    /** index.js:6-10: all three start out null. */
    constructor ()
      ensures container == null && progress == null && labelNode == null && pendingClears == 0
    {
      container, progress, labelNode := null, null, null;
      pendingClears := 0;
    }

    /** index.js:45-52: fresh nodes; the label and the bar inside the container, the container in `root`. */
    method CreateElements(root: Element) returns (appended: Element)
      modifies this`container, this`progress, this`labelNode, root`childNodes
      ensures Created()
      ensures fresh(container) && fresh(progress) && fresh(labelNode)
      ensures container.tagName == "aside" && progress.tagName == "progress" && labelNode.tagName == "label"
      ensures container.childNodes == [labelNode, progress]
      ensures progress.childNodes == [] && labelNode.childNodes == []
      ensures container.classList == {} && progress.classList == {} && labelNode.classList == {}
      ensures container.attributes == map[] && progress.attributes == map[] && labelNode.attributes == map[]
      ensures container.innerHTML == "" && progress.innerHTML == "" && labelNode.innerHTML == ""
      ensures root.childNodes == old(root.childNodes) + [container]
      ensures appended == container
    {
      var c := new Element("aside");
      var p := new Element("progress");
      var l := new Element("label");
      container, progress, labelNode := c, p, l;
      var _ := c.AppendChild(l);
      var _ := c.AppendChild(p);
      appended := root.AppendChild(c);
    }

    /**
     * index.js:90-122, once the three battery reads have resolved to `battery`;
     * `showBatteryBar` is the config entry, absent when undefined.
     */
    method DrawBatteryLevel(battery: BatterySnapshot, showBatteryBar: Option<bool>,
                            toPrecision3: real -> string, toFixed1: real -> string)
      requires Created()
      modifies progress`max, progress`value, progress`classList, labelNode`innerHTML, labelNode`classList
      modifies container`classList, this`pendingClears
      ensures progress.max == 100.0 && progress.value == BatteryLevel(battery)
      ensures labelNode.innerHTML == LabelMarkup(toPrecision3(BatteryLevel(battery)),
                                             TimeText(ActiveTime(battery), toFixed1), ChargingLabel(battery))
      ensures labelNode.classList == old(labelNode.classList) + {"battery-level", "updated"}
      ensures progress.classList == old(progress.classList) + {"battery-bar", StateToken(StateOf(battery))}
      ensures container.classList ==
              Toggled(old(container.classList) + {"power-bar-container"}, "hidden", showBatteryBar == Some(false))
      ensures "hidden" in container.classList <==> showBatteryBar == Some(false)
      ensures pendingClears == old(pendingClears) + 1
    {
      var level := BatteryLevel(battery);
      var time := GetBatteryTime(battery, toFixed1);
      var timeLabel := ChargingLabel(battery);
      var state := ClassifyLevel(level);

      progress.max := 100.0;
      progress.value := level;
      labelNode.innerHTML := LabelMarkup(toPrecision3(level), time, timeLabel);

      labelNode.AddClasses({"battery-level", "updated"});
      progress.AddClasses({"battery-bar", StateToken(state)});
      container.AddClasses({"power-bar-container"});
      container.ToggleClass("hidden", showBatteryBar == Some(false));

      pendingClears := pendingClears + 1;
    }

    /** The timer of index.js:121 firing: `updated` leaves the label's class list. */
    method ClearUpdated()
      requires Created() && pendingClears > 0
      modifies labelNode`classList, this`pendingClears
      ensures labelNode.classList == old(labelNode.classList) - {"updated"}
      ensures pendingClears == old(pendingClears) - 1
    {
      labelNode.RemoveClass("updated");
      pendingClears := pendingClears - 1;
    }

    /**
     * index.js:126: the container's first style node named `filename`, or a
     * fresh `style` node when there is none.
     */
    method FindStyle(filename: string) returns (css: Element)
      requires container != null
      ensures css.tagName == "style"
      ensures StylesNamed(container.childNodes, filename) == {} ==>
                fresh(css) && css.attributes == map[] && css.classList == {} && css.childNodes == []
      ensures StylesNamed(container.childNodes, filename) != {} ==>
                css == container.childNodes[QuerySelector(container.childNodes, filename)]
      ensures !fresh(css) ==> css in StylesNamed(container.childNodes, filename)
    {
      var i := QuerySelector(container.childNodes, filename);
      if i < |container.childNodes| {
        css := container.childNodes[i];
      } else {
        css := new Element("style");
      }
    }

    /**
     * index.js:139-141: name the style node and write its text. A node already
     * among the children keeps matching, so the matches stay the same.
     */
    method NameStyle(css: Element, filename: string, text: string)
      requires container != null && css.tagName == "style"
      requires css in container.childNodes ==> IsStyleNamed(css, filename)
      modifies css`attributes, css`innerHTML
      ensures css.attributes == old(css.attributes)["name" := filename] && css.innerHTML == text
      ensures StylesNamed(container.childNodes, filename) == old(StylesNamed(container.childNodes, filename))
    {
      css.SetAttribute("name", filename);
      css.innerHTML := text;
      assert forall e :: e in container.childNodes ==> (IsStyleNamed(e, filename) <==> old(IsStyleNamed(e, filename)));
    }

    /**
     * index.js:125-143: reuse the container's style node named `filename`, or
     * create one; name it, fill it from the file text `file` and `variables`,
     * and append it to the container.
     */
    method ApplyCss(filename: string, variables: seq<Property>, file: string) returns (css: Element)
      requires container != null && container !in container.childNodes
      modifies container`childNodes, container.childNodes`attributes, container.childNodes`innerHTML
      ensures css.tagName == "style" && "name" in css.attributes && css.attributes["name"] == filename
      ensures css.innerHTML == StyleText(file, variables)
      ensures container.childNodes == Without(old(container.childNodes), css) + [css]
      ensures old(StylesNamed(container.childNodes, filename)) == {} ==> fresh(css)
      ensures old(StylesNamed(container.childNodes, filename)) != {} ==>
                css == old(container.childNodes[QuerySelector(container.childNodes, filename)])
      ensures StylesNamed(container.childNodes, filename) == old(StylesNamed(container.childNodes, filename)) + {css}
      ensures |old(StylesNamed(container.childNodes, filename))| <= 1 ==>
                StylesNamed(container.childNodes, filename) == {css}
      ensures forall e :: e in old(container.childNodes) && e != css ==> unchanged(e)
      ensures !fresh(css) ==> (css.attributes == old(css.attributes)["name" := filename] &&
                               css.classList == old(css.classList) && css.childNodes == old(css.childNodes))
      ensures fresh(css) ==> (css.attributes == map["name" := filename] && css.classList == {} && css.childNodes == [])
    {
      ghost var before := StylesNamed(container.childNodes, filename);
      ghost var children := container.childNodes;
      css := FindStyle(filename);
      NameStyle(css, filename, StyleText(file, variables));
      var _ := container.AppendChild(css);
      StylesAfterAppend(children, css, filename);
      if |before| <= 1 && css in before {
        OnlyMember(before, css);
      }
    }
  }

  /** Applying the stylesheet twice leaves one style node, holding what the second call wrote. */
  method ApplyCssTwice(elements: Elements, file: string, first: seq<Property>, second: seq<Property>)
      returns (css: Element)
    requires elements.container != null && elements.container !in elements.container.childNodes
    requires |StylesNamed(elements.container.childNodes, "style.css")| <= 1
    modifies elements.container`childNodes, set e | e in elements.container.childNodes
    ensures StylesNamed(elements.container.childNodes, "style.css") == {css}
    ensures css.innerHTML == StyleText(file, second)
    ensures elements.container.childNodes[|elements.container.childNodes| - 1] == css
  {
    var c1 := elements.ApplyCss("style.css", first, file);
    css := elements.ApplyCss("style.css", second, file);
  }

  /** Two renders: state classes accumulate, they are never taken away. */
  method RenderTwice(root: Element, first: BatterySnapshot, second: BatterySnapshot,
                     toPrecision3: real -> string, toFixed1: real -> string) returns (elements: Elements)
    modifies root`childNodes
    ensures elements.Created()
    ensures elements.container.childNodes == [elements.labelNode, elements.progress]
    ensures elements.progress.classList ==
            {"battery-bar", StateToken(StateOf(first)), StateToken(StateOf(second))}
  {
    elements := new Elements();
    var _ := elements.CreateElements(root);
    Redraw(elements, first, toPrecision3, toFixed1);
    Redraw(elements, second, toPrecision3, toFixed1);
  }

  /** One render with `showBatteryBar` undefined, seen through the bar's tokens only. */
  method Redraw(elements: Elements, battery: BatterySnapshot, toPrecision3: real -> string, toFixed1: real -> string)
    requires elements.Created()
    modifies elements.progress`max, elements.progress`value, elements.progress`classList
    modifies elements.labelNode`innerHTML, elements.labelNode`classList
    modifies elements.container`classList, elements`pendingClears
    ensures elements.progress.classList == old(elements.progress.classList) + {"battery-bar", StateToken(StateOf(battery))}
  {
    elements.DrawBatteryLevel(battery, None, toPrecision3, toFixed1);
  }
}
