/** The navigation bar component: from the current step, the step count,
    the `canProceed` verdict, the sending flag and the step that
    `getNextStep` would move to, it decides which of Previous, Next and
    Finish are present and which are disabled. */
module NavigationButtons {
  import Wizard
  import FormTypes

  /** The component's inputs, with `getNextStep()` already evaluated. */
  datatype Props = Props(currentStep: int, totalSteps: int, canProceed: bool, isSending: bool, nextStep: int)

  /** `isLastStep` */
  predicate IsLastStep(p: Props) {
    p.currentStep == p.totalSteps || p.nextStep > p.totalSteps
  }

  /** The state of the three buttons. */
  datatype Buttons = Buttons(previousDisabled: bool, nextShown: bool, nextDisabled: bool,
                             finishShown: bool, finishDisabled: bool)

  function Render(p: Props): (b: Buttons)
    ensures b.nextShown <==> !IsLastStep(p)
    ensures b.finishShown <==> IsLastStep(p)
    ensures b.nextShown != b.finishShown
    ensures b.previousDisabled <==> p.currentStep == 1 || p.isSending
    ensures b.nextDisabled <==> !p.canProceed || p.isSending
    ensures b.finishDisabled == b.nextDisabled
  {
    Buttons(
      previousDisabled := p.currentStep == 1 || p.isSending,
      nextShown := !IsLastStep(p),
      nextDisabled := !p.canProceed || p.isSending,
      finishShown := IsLastStep(p),
      finishDisabled := !p.canProceed || p.isSending)
  }

  /** The props the questionnaire would pass for a step of its own. */
  function PropsOf(step: int, d: FormTypes.ConsultationFormData, isSending: bool): Props {
    Props(step, Wizard.TotalSteps, Wizard.CanProceed(step, d), isSending,
          Wizard.NextStep(step, d.consultationType))
  }

  /** Fed with the questionnaire's own values, the bar shows Next and
      Finish exactly where the questionnaire's inline buttons do, with the
      same disabled states. */
  lemma AgreesWithWizard(step: int, d: FormTypes.ConsultationFormData, isSending: bool)
    requires 1 <= step <= Wizard.TotalSteps
    ensures var b := Render(PropsOf(step, d, isSending));
      && (b.nextShown <==> Wizard.NextShown(step, d.consultationType))
      && (b.finishShown <==> Wizard.FinishShown(step, d.consultationType))
      && (b.nextDisabled <==> !Wizard.CanProceed(step, d) || isSending)
      && (b.previousDisabled <==> step == 1 || isSending)
  {
  }
}
