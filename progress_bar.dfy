/** The progress counter (src/utils/progressBar.js). Only its state is
    modelled: the fields and the frames handed to the renderer, each frame
    being the counter values and the description it was drawn with. */
module Progress {

  /** What one `render` call receives. An empty description draws no second line. */
  datatype Frame = Frame(completed: int, total: int, description: string)

  class ProgressBar {
    const title: string
    const length: int
    var total: int
    var completed: int
    /** Every frame rendered so far, oldest first. */
    var frames: seq<Frame>

    /** `new ProgressBar({title, barLength, total})`. An absent option and a
        falsy one (`""`, `0`) are the same to `||`, so absence is written as
        `""` or `0` here. */
    constructor(title: string, barLength: int, total: int)
      ensures this.title == (if title != "" then title else "Progress")
      ensures length == (if barLength != 0 then barLength else 25)
      ensures this.total == total
      ensures completed == 0 && frames == []
    {
      this.title := if title != "" then title else "Progress";
      this.length := if barLength != 0 then barLength else 25;
      this.total := total;
      completed := 0;
      frames := [];
    }

    /** One more step done; draws the new count. */
    method Tick(description: string)
      modifies this`completed, this`frames
      ensures completed == old(completed) + 1
      ensures frames == old(frames) + [Frame(completed, total, description)]
    {
      completed := completed + 1;
      frames := frames + [Frame(completed, total, description)];
    }

    /** `update({completed, total, description})`: a falsy count (0 or
        absent) keeps the previous one. */
    method Update(completed: int, total: int, description: string)
      modifies this`completed, this`total, this`frames
      ensures this.completed == KeepUnlessGiven(completed, old(this.completed))
      ensures this.total == KeepUnlessGiven(total, old(this.total))
      ensures frames == old(frames) + [Frame(this.completed, this.total, description)]
    {
      this.completed := if completed != 0 then completed else this.completed;
      this.total := if total != 0 then total else this.total;
      frames := frames + [Frame(this.completed, this.total, description)];
    }
  }

  /** `given || current` on numbers. */
  function KeepUnlessGiven(given: int, current: int): (r: int)
    ensures r == given || r == current
    ensures given != 0 ==> r == given
    ensures r == 0 ==> given == 0 && current == 0
  {
    if given != 0 then given else current
  }
}
