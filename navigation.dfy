/** The navigator's route names, as the root stack declares them. */
module Navigation {

  datatype Screen =
    | PublicHome | Register | Login | Otp | LoginOtp | Home
    | KycIntro | KycForm | KycPending | KycRejected
    | ForgotPassword | ResetPassword | ProfileOverview
    | EditProfile | ChangeEmail | ChangeMobile | PhotoUpdate | CommunicationPreferences
    | ProductDetails
}
