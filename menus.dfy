/** The two menus of script.js whose open state is the `active` class on a pair
    of elements: the floating contact menu (container and toggle button) and
    the mobile navigation menu (toggle button and link list). Each handler
    updates both flags, so the two flags of a menu always agree. */
module Menus {
  import opened Chatbot

  /** The floating contact menu: `active` on `#contactFloatContainer` and on
      `#contactMenuToggle`. */
  class ContactMenu {
    var containerActive: bool
    var toggleActive: bool

    /** The container and its toggle are open or closed together. */
    predicate Valid()
      reads this
    {
      containerActive == toggleActive
    }

    /** The page loads with the menu closed. */
    constructor ()
      ensures Valid() && !containerActive && !toggleActive
    {
      containerActive, toggleActive := false, false;
    }

    /** A click on the toggle (which stops propagation) flips both flags. */
    method ToggleClick()
      requires Valid()
      modifies this
      ensures Valid()
      ensures containerActive == !old(containerActive) && toggleActive == !old(toggleActive)
    {
      containerActive := !containerActive;
      toggleActive := !toggleActive;
    }

    /** A click reaching the document closes the menu unless its target lies
        inside the container. */
    method DocumentClick(insideContainer: bool)
      requires Valid()
      modifies this
      ensures Valid()
      ensures if insideContainer then containerActive == old(containerActive) && toggleActive == old(toggleActive)
              else !containerActive && !toggleActive
    {
      if !insideContainer {
        containerActive := false;
        toggleActive := false;
      }
    }

    /** A click on the chatbot option closes the menu and then clicks the
        chatbot's toggle button, whose listener is `toggleChat`; the listener
        exists only when the chatbot registered its handlers. */
    method ChatbotOptionClick(bot: MiMudanzaChatbot)
      modifies this, bot`windowOpen
      ensures Valid() && !containerActive && !toggleActive
      ensures bot.windowOpen == if bot.listening then !old(bot.windowOpen) else old(bot.windowOpen)
    {
      containerActive := false;
      toggleActive := false;
      if bot.listening {
        bot.ToggleChat();
      }
    }

    /** The timer a click on any other contact option starts: when it fires,
        200 ms later, the menu closes. */
    method OtherOptionTimerFires()
      modifies this
      ensures Valid() && !containerActive && !toggleActive
    {
      containerActive := false;
      toggleActive := false;
    }
  }

  /** The mobile navigation menu: `active` on `#navToggle` and on `#navLinks`. */
  class NavMenu {
    var toggleActive: bool
    var linksActive: bool

    /** The toggle button and the link list are open or closed together. */
    predicate Valid()
      reads this
    {
      toggleActive == linksActive
    }

    constructor ()
      ensures Valid() && !toggleActive && !linksActive
    {
      toggleActive, linksActive := false, false;
    }

    /** A click on the toggle flips both flags. */
    method ToggleClick()
      requires Valid()
      modifies this
      ensures Valid()
      ensures toggleActive == !old(toggleActive) && linksActive == !old(linksActive)
    {
      toggleActive := !toggleActive;
      linksActive := !linksActive;
    }

    /** A click on one of the links closes the menu. */
    method LinkClick()
      modifies this
      ensures Valid() && !toggleActive && !linksActive
    {
      toggleActive := false;
      linksActive := false;
    }

    /** A click reaching the document closes the menu unless its target lies
        inside the toggle or inside the link list. */
    method DocumentClick(insideToggle: bool, insideLinks: bool)
      requires Valid()
      modifies this
      ensures Valid()
      ensures if insideToggle || insideLinks then toggleActive == old(toggleActive) && linksActive == old(linksActive)
              else !toggleActive && !linksActive
    {
      if !insideToggle && !insideLinks {
        toggleActive := false;
        linksActive := false;
      }
    }
  }
}
