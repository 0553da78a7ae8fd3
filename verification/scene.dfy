/**
 * The scene (`renderers/scene.rs`): an append-only list of stimuli, each rendered once, in the
 * order they were added.
 */
module SceneRenderer {
  import Common
  import opened RenderPass
  import opened TriangleRenderer
  import CircleRenderer
  import RectangleRenderer
  import CrossRenderer

  /** One boxed `StimulusRenderer`: the three kinds vsg-core builds. */
  datatype Stimulus =
    | CircleStimulus(circle: CircleRenderer.Circle)
    | RectangleStimulus(rectangle: RectangleRenderer.Rectangle)
    | CrossStimulus(cross: CrossRenderer.Cross)
  {
    /** The objects whose state the drawing depends on. */
    function Frame(): set<Triangle>
    {
      match this
      case CircleStimulus(c) => {c.triangles}
      case RectangleStimulus(r) => {r.pipeline}
      case CrossStimulus(x) => x.Frame()
    }

    function Calls(): seq<Call>
      reads Frame()
    {
      match this
      case CircleStimulus(c) => c.Calls()
      case RectangleStimulus(r) => r.Calls()
      case CrossStimulus(x) => x.Calls()
    }

    method Render(pass: seq<Call>) returns (after: seq<Call>)
      ensures after == pass + Calls()
    {
      match this
      case CircleStimulus(c) => after := c.Render(pass);
      case RectangleStimulus(r) => after := r.Render(pass);
      case CrossStimulus(x) => after := x.Render(pass);
    }
  }

  /** The calls of rendering every stimulus once, in list order. */
  function SceneCalls(stimuli: seq<Stimulus>): seq<Call>
    reads set i, t | 0 <= i < |stimuli| && t in stimuli[i].Frame() :: t
  {
    if stimuli == [] then []
    else SceneCalls(stimuli[..|stimuli| - 1]) + stimuli[|stimuli| - 1].Calls()
  }

  class Scene {
    var stimuli: seq<Stimulus>

    /** `Scene::new`: no stimuli. */
    constructor ()
      ensures stimuli == []
    {
      stimuli := [];
    }

    /** `add_stimulus`: the new stimulus goes last; the earlier ones stay, in place. */
    method AddStimulus(stimulus: Stimulus)
      modifies this
      ensures stimuli == old(stimuli) + [stimulus]
    {
      stimuli := stimuli + [stimulus];
    }

    /** `render`: renders every stimulus once, in insertion order. */
    method Render(pass: seq<Call>) returns (after: seq<Call>)
      ensures after == pass + SceneCalls(stimuli)
    {
      after := pass;
      for i := 0 to |stimuli|
        invariant after == pass + SceneCalls(stimuli[..i])
        invariant forall j, t | 0 <= j < |stimuli| && t in stimuli[j].Frame() :: allocated(t)
      {
        var upto := stimuli[..i + 1];
        assert upto[..i] == stimuli[..i] && upto[i] == stimuli[i];
        SceneCallsLast(upto);
        Common.AppendAssociative(pass, SceneCalls(stimuli[..i]), stimuli[i].Calls());
        after := stimuli[i].Render(after);
      }
      assert stimuli[..|stimuli|] == stimuli;
    }
  }

  /**
   * Rendering a scene of `n` stimuli makes the calls of the first `n - 1` in order and then
   * those of the last, whatever the stimuli are: adding a stimulus appends its drawing after
   * everything already drawn, and each earlier stimulus is drawn exactly as before.
   */
  lemma {:induction false} SceneCallsSplit(front: seq<Stimulus>, back: seq<Stimulus>)
    ensures SceneCalls(front + back) == SceneCalls(front) + SceneCalls(back)
    decreases |back|
  {
    if back == [] {
      assert front + back == front;
    } else {
      var back', last := back[..|back| - 1], back[|back| - 1];
      var all := front + back;
      assert all[..|all| - 1] == front + back' && all[|all| - 1] == last;
      SceneCallsLast(all);
      SceneCallsLast(back);
      SceneCallsSplit(front, back');
      calc {
        SceneCalls(all);
        SceneCalls(front + back') + last.Calls();
        (SceneCalls(front) + SceneCalls(back')) + last.Calls();
        { Common.AppendAssociative(SceneCalls(front), SceneCalls(back'), last.Calls()); }
        SceneCalls(front) + SceneCalls(back);
      }
    }
  }

  lemma SceneCallsLast(s: seq<Stimulus>)
    requires s != []
    ensures SceneCalls(s) == SceneCalls(s[..|s| - 1]) + s[|s| - 1].Calls()
  {
  }

  /** A one-stimulus scene draws exactly that stimulus. */
  lemma SingleStimulusScene(s: Stimulus)
    ensures SceneCalls([s]) == s.Calls()
  {
    assert [s][..0] == [];
  }
}
