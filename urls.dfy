/** The web and API addresses of the staging environment. */
module WebUrls {
  const BaseUrl := "https://staging.propertyguru.vn/"
  const LoginPage := "https://staging.propertyguru.vn/sellernet/trang-dang-nhap"
  const ListingCreationPage := "https://staging.propertyguru.vn/nguoi-ban/dang-tin"

  /** `UMSEndpoint.signIn` */
  const SignInEndpoint := "user-management-service/api/v1/User/Login"
}
