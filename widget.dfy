/** The balanced password input as one stateful object: its fields are the
    component's state and the remembered slot of the last tone, and each
    method is one event handler or one animation frame, reading the old
    state and committing the new one at once. */
module Widget {
  import opened Layouts
  import Physics
  import Notes
  import Tones
  import Pointer
  import Password

  datatype KeyCode = Space | Backspace | OtherKey

  class BalancedPasswordInput {
    var password: string
    var rotation: real
    var position: real
    var velocity: real
    var layout: Layout
    var selectorShown: bool
    var prevCharIndex: int

    /** The ball is on the bar and no faster than terminal speed. */
    ghost predicate Valid()
      reads this
    {
      0.0 <= position <= 1.0 && Physics.Abs(velocity) <= Physics.TerminalSpeed
    }

    constructor ()
      ensures Valid()
      ensures password == [] && rotation == 0.0 && layout == US && !selectorShown
      ensures position == Physics.RestartPosition && velocity == Physics.RestartVelocity
      ensures prevCharIndex == 0
    {
      password := [];
      rotation := 0.0;
      position := Physics.RestartPosition;
      velocity := Physics.RestartVelocity;
      layout := US;
      selectorShown := false;
      prevCharIndex := 0;
    }

    /** The highlighted slot: floor(position * length), not clamped, so the
        right end gives the length itself and no slot is highlighted. */
    function CurrentCharIndex(): (i: int)
      reads this
      ensures 0.0 <= position <= 1.0 ==>
                0 <= i <= |Characters(layout)| && (i == |Characters(layout)| <==> position == 1.0)
    {
      SlotIndex(position, |Characters(layout)|)
    }

    /** One animation frame, with `sine` the sine of the bar's tilt. The
        ball moves as Physics.Next says; a tone is played as Tones.Cue
        says, for the unclamped slot of the new position, the character
        Space would commit there and the damped velocity before any bounce. */
    method Step(sine: real, audio: Tones.AudioEnv) returns (tone: Tones.Option<Tones.Tone>)
      requires Valid() && -1.0 <= sine <= 1.0
      modifies this
      ensures Valid()
      ensures Physics.Motion(position, velocity)
              == Physics.Next(Physics.Motion(old(position), old(velocity)), Physics.GravityForce(sine))
      ensures tone == Tones.Cue(audio, old(prevCharIndex), CurrentCharIndex(), SelectedChar(layout, position),
                                Physics.Damped(old(velocity), Physics.GravityForce(sine)))
      ensures prevCharIndex == Tones.NextPrev(audio, old(prevCharIndex), CurrentCharIndex())
      ensures password == old(password) && rotation == old(rotation)
      ensures layout == old(layout) && selectorShown == old(selectorShown)
    {
      var gravityForce := Physics.GravityForce(sine);
      ghost var before := Physics.Motion(position, velocity);
      ghost var after := Physics.Next(before, gravityForce);
      Physics.SpeedStaysBounded(before, gravityForce);
      var newVelocity := (velocity + gravityForce) * Physics.Damping;
      assert newVelocity == Physics.Damped(before.velocity, gravityForce);
      var newPosition := position + newVelocity;
      if newPosition < 0.0 {
        newPosition := 0.0;
        velocity := -newVelocity * Physics.Restitution;
      } else if newPosition > 1.0 {
        newPosition := 1.0;
        velocity := -newVelocity * Physics.Restitution;
      } else {
        velocity := newVelocity;
      }
      position := newPosition;
      assert Physics.Motion(position, velocity) == after;

      tone := Tones.None;
      if audio.enabled && audio.running {
        var characters := Characters(layout);
        var charIndex := SlotIndex(newPosition, |characters|);
        if charIndex != prevCharIndex && !audio.fails {
          var newChar := characters[SelectedIndex(newPosition, |characters|)];
          var frequency := Notes.NoteFrequency(newChar);
          var velocityVolume := Tones.Volume(newVelocity);
          tone := Tones.Some(Tones.Tone(frequency, velocityVolume));
          prevCharIndex := charIndex;
        }
      }
    }

    /** A key press: Space commits the selected character (and suppresses
        the browser's default scrolling), Backspace removes the last one,
        any other key does nothing. */
    method KeyDown(key: KeyCode) returns (defaultPrevented: bool)
      requires Valid()
      modifies this
      ensures Valid()
      ensures defaultPrevented <==> key == Space
      ensures key == Space ==> password == Password.Commit(old(password), SelectedChar(layout, position))
      ensures key == Backspace ==> password == Password.Backspace(old(password))
      ensures key == OtherKey ==> password == old(password)
      ensures rotation == old(rotation) && position == old(position) && velocity == old(velocity)
      ensures layout == old(layout) && selectorShown == old(selectorShown)
      ensures prevCharIndex == old(prevCharIndex)
    {
      defaultPrevented := false;
      if key == Space {
        defaultPrevented := true;
        var characters := Characters(layout);
        var charIndex := SlotIndex(position, |characters|);
        var ch := characters[if charIndex < |characters| - 1 then charIndex else |characters| - 1];
        password := password + [ch];
      } else if key == Backspace {
        password := Password.Slice(password, 0, -1);
      }
    }

    /** Pointer movement over the widget, whose box is `rect` once it is
        mounted: the tilt follows the pointer's offset from the centre. */
    method MouseMove(container: Pointer.Container, clientX: real)
      requires container.Mounted? ==> container.rect.width > 0.0
      requires Valid()
      modifies this
      ensures Valid()
      ensures container.Unmounted? ==> rotation == old(rotation)
      ensures container.Mounted? ==> rotation == Pointer.TiltFromPointer(container.rect, clientX)
      ensures password == old(password) && position == old(position) && velocity == old(velocity)
      ensures layout == old(layout) && selectorShown == old(selectorShown)
      ensures prevCharIndex == old(prevCharIndex)
    {
      if container.Unmounted? {
        return;
      }
      var rect := container.rect;
      var centerX := rect.width / 2.0;
      var mouseOffset := clientX - rect.left - centerX;
      rotation := (mouseOffset / centerX) * Pointer.MaxRotation;
    }

    /** The pointer leaves the widget: the tilt relaxes by a factor 0.8. */
    method MouseLeave()
      requires Valid()
      modifies this
      ensures Valid()
      ensures rotation == Pointer.Relax(old(rotation))
      ensures Physics.Abs(rotation) <= Physics.Abs(old(rotation))
      ensures password == old(password) && position == old(position) && velocity == old(velocity)
      ensures layout == old(layout) && selectorShown == old(selectorShown)
      ensures prevCharIndex == old(prevCharIndex)
    {
      Pointer.RelaxShrinks(rotation);
      rotation := rotation * Pointer.LeaveDecay;
    }

    /** The layout button shows or hides the layout selector. */
    method ToggleSelector()
      requires Valid()
      modifies this
      ensures Valid()
      ensures selectorShown == !old(selectorShown)
      ensures password == old(password) && rotation == old(rotation)
      ensures position == old(position) && velocity == old(velocity)
      ensures layout == old(layout) && prevCharIndex == old(prevCharIndex)
    {
      selectorShown := !selectorShown;
    }

    /** Choosing a layout: the selector closes and the ball restarts at the
        middle with a small rightward velocity, whatever the prior state.
        The password and the remembered tone slot are kept. */
    method SwitchLayout(l: Layout)
      modifies this
      ensures Valid()
      ensures layout == l && !selectorShown
      ensures position == Physics.RestartPosition && velocity == Physics.RestartVelocity
      ensures password == old(password) && rotation == old(rotation)
      ensures prevCharIndex == old(prevCharIndex)
    {
      layout := l;
      selectorShown := false;
      position := Physics.RestartPosition;
      velocity := Physics.RestartVelocity;
    }
  }

  /** A fresh widget with the US layout commits '6' on Space, and Backspace
      empties the password again. */
  method CommitThenDelete() returns (afterSpace: string, afterBackspace: string, afterSecond: string)
    ensures afterSpace == "6" && afterBackspace == [] && afterSecond == []
  {
    var w := new BalancedPasswordInput();
    StartingCharacterUS();
    var prevented := w.KeyDown(Space);
    assert prevented;
    afterSpace := w.password;
    prevented := w.KeyDown(Backspace);
    assert !prevented;
    afterBackspace := w.password;
    prevented := w.KeyDown(Backspace);
    afterSecond := w.password;
  }
}
