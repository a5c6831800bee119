/**
 * The scene's mode: Orbit (the initial mode) or Walk. Toggling flips it and
 * tells the hosting shell the new mode, which the shell stores to choose its
 * help text.
 */
module ModeControl {

  class ModeController {
    /** true in Walk mode, false in Orbit mode. */
    var isFirstPerson: bool
    /** Whether the shell supplied a mode-change callback. */
    const notifiesShell: bool
    /** The payloads handed to the shell's callback, oldest first. */
    var notifications: seq<bool>

    /**
     * The shell's own copy of the mode (false until it is first told
     * otherwise) agrees with the scene's whenever the shell is listening.
     */
    ghost predicate ShellInSync()
      reads this
    {
      notifiesShell ==>
        if notifications == [] then !isFirstPerson else notifications[|notifications| - 1] == isFirstPerson
    }

    /** A scene starts in Orbit mode, having told the shell nothing. */
    constructor (notifiesShell: bool)
      ensures this.notifiesShell == notifiesShell
      ensures !isFirstPerson && notifications == [] && ShellInSync()
    {
      this.notifiesShell := notifiesShell;
      isFirstPerson := false;
      notifications := [];
    }

    /** Flip the mode and report the new one to the shell, if it listens. */
    method ToggleMode()
      modifies this
      ensures isFirstPerson == !old(isFirstPerson)
      ensures notifications == old(notifications) + (if notifiesShell then [isFirstPerson] else [])
      ensures old(ShellInSync()) ==> ShellInSync()
    {
      var next := !isFirstPerson;
      isFirstPerson := next;
      if notifiesShell {
        notifications := notifications + [next];
      }
    }
  }

  /** Entering Walk mode and leaving it again restores the mode, and the shell hears both changes in order. */
  method ToggleTwice(c: ModeController)
    modifies c
    ensures c.isFirstPerson == old(c.isFirstPerson)
    ensures c.notifiesShell ==> c.notifications == old(c.notifications) + [!old(c.isFirstPerson), old(c.isFirstPerson)]
    ensures !c.notifiesShell ==> c.notifications == old(c.notifications)
    ensures old(c.ShellInSync()) ==> c.ShellInSync()
  {
    c.ToggleMode();
    c.ToggleMode();
  }
}
