/**
 The index page's own state: whether the sign-up modal is open and which lesson,
 if any, it was opened for. Every button on the page writes these two fields.
 */
module Pages {
  import opened Wrappers
  import opened Lessons

  class Index {
    var isSignUpModalOpen: bool
    var selectedLesson: Option<Lesson>

    /** The page loads with the modal closed and nothing selected. */
    constructor()
      ensures !isSignUpModalOpen && selectedLesson == None
    {
      isSignUpModalOpen := false;
      selectedLesson := None;
    }

    /** A general "sign up" button (navigation bar, hero): no lesson, modal open. */
    method HandleSignUpClick()
      modifies this
      ensures isSignUpModalOpen && selectedLesson == None
    {
      selectedLesson := None;
      isSignUpModalOpen := true;
    }

    /** A lesson card's button: that lesson, modal open. */
    method HandleLessonSignUp(lesson: Lesson)
      modifies this
      ensures isSignUpModalOpen && selectedLesson == Some(lesson)
    {
      selectedLesson := Some(lesson);
      isSignUpModalOpen := true;
    }

    /** The `onClose` the page hands the modal: it closes the modal and keeps the
        selection. */
    method OnClose()
      modifies this`isSignUpModalOpen
      ensures !isSignUpModalOpen && selectedLesson == old(selectedLesson)
    {
      isSignUpModalOpen := false;
    }

    /** Pressing the button on the `i`-th card of the lessons section. */
    method LessonCardClicked(i: nat)
      requires i < |UpcomingLessons|
      modifies this
      ensures isSignUpModalOpen && selectedLesson == Some(UpcomingLessons[i])
    {
      HandleLessonSignUp(Cards(UpcomingLessons)[i].signUpLesson);
    }
  }
}
